# A model of a BACnet COV client and a local-point manager

This project models two small programs that sit next to a BACnet stack.

- **`cov_client.py`** is a change-of-value (COV) client. Each tick it finds one
  target device with Who-Is/I-Am, reads the device's `objectList` and subscribes
  to COV notifications for every object that is not the device itself. Every
  subscription gets a *subscription context* from a process-wide registry,
  keyed by a subscriber process identifier (the "id") drawn from a counter. An
  incoming COV notification reaches a context only when its id is registered
  and it comes from that context's address. A confirmed notification is then
  acknowledged; one that reaches no context is refused with
  `ExecutionError('services', 'unknownSubscription')`.
- **`manage_local_points.py`** manages local objects on a gateway. It creates
  one local object per analog and binary type, deletes them again, and on each
  round moves every present value on: binary values toggle, and analog values
  ramp by 1.5 and wrap inside [55, 85]. Every gRPC call is meant to go through
  `retry_on_connection_error`, which makes at most 5 attempts and backs off
  exponentially while the channel reports UNAVAILABLE. As written it never
  retries (see "## Findings").

The files are:

| file | module | what it holds |
|---|---|---|
| `wrappers.dfy` | `Wrappers` | `Option` and `Result` |
| `bacnet.dfy` | `Bacnet` | The APDUs and identifiers the client exchanges with the stack. |
| `subscription_registry.dfy` | `SubscriptionRegistry` | The `subscription_contexts` table and the `next_proc_id` counter. This is the class `Registry`. It also holds notification routing. |
| `cov_client.dfy` | `CovClient` | The class `CovApplication` and the specification of one subscribe pass. |
| `retry.dfy` | `ConfigurationApi` | The retry wrapper, as a loop proved against the intended policy, and the wrapper as written. |
| `naming.dfy` | `Naming` | `str.upper`, the snake_case to camelCase rewrite, and the literal `re.search`. |
| `local_points.dfy` | `LocalPoints` | Point creation, the value rules, the update pass and the clear pass. |

The client is imperative, so it is a class.

- The stack is replaced by two things: an `outbox`, which holds every request
  sent, in order, and handler methods, which take the stack's completions and
  APDUs as arguments.
- `Valid()` is kept by every method. It says:
  - the registry's ids are exactly 1 up to the counter;
  - every id is filed under itself;
  - every subscribe request sent names a registered context for that object
    and address;
  - every delivered notification and every acknowledgement routes to a
    registered context.
- `do_SubscribeCOV` keeps its loop over the object list. Its body is the method
  `SubscribeNext`. Its invariant ties the state after `i` objects to
  `PlannedContexts` of the first `i` objects. `PlannedContexts` is the pure
  specification of a pass, and its properties are lemmas (`PlanContexts`,
  `PlanCovers`, `SubscribeRequestsMatch`).

The manager's retry loop, analog wrap loop, update pass and clear pass are
methods with loops. Each is proved equal to a reference function, and the
properties are proved about that function. The reference for the analog wrap
is the closed form `NextAnalogValue`; the others are recursive (`Retry`,
`Updates`, `Deletes`). The wrapper's result for each
remote call is an input: one `CallResult` per call, in call order. The
requests the manager would send are the methods' results.

Where the code of the COV client, `cov_client.py`, departs from what the
client evidently intends, the model follows the code:

- A tick subscribes whenever `subscriptions` is empty. That map is filled only
  by `cov_results`, so a tick that runs before any subscribe result has come
  back subscribes to every object again, under new ids, although the client is
  meant to subscribe to the object list once.
  `CovClient.DuplicateSubscriptionRun` shows two ticks subscribing to the same
  object, under ids 1 and 2.
- `indication` caches an I-Am for any device instance, not only the target's,
  although answers for other devices are of no use to the client. This is
  harmless: `CovClient.OtherInstanceKeepsDiscovering` and
  `CovClient.OtherInstanceThenTick` show that the target's
  address still becomes known only from its own I-Am.

The departures in the manager's retry wrapper are under "## Findings".

## Model

| member | source | states |
|---|---|---|
| SubscriptionRegistry.Registry.constructor | cov_client.py:46-47 | The registry starts with an empty table and the counter at 1, and satisfies its invariant. |
| SubscriptionRegistry.Registry.NewContext | cov_client.py:88-100 | The new context's id is the counter's old value, which is larger than every id already registered and not in the table. The counter grows by exactly 1. The table gains exactly that entry, and every earlier entry is unchanged. The invariant holds: ids are 1 up to the counter, each filed under itself. |
| SubscriptionRegistry.Route | cov_client.py:200-201 | The lookup both notification handlers do (also lines 224-225); specified by `RouteExact` and `RouteStable`. |
| SubscriptionRegistry.RouteExact | cov_client.py:200-201 | A routed notification reaches a context with the notification's own id and source address. Every registered context with that id and address is the one it reaches. |
| SubscriptionRegistry.RouteStable | cov_client.py:96 | Adding entries to the table never changes where an already routable notification goes. |
| CovClient.TickStage | cov_client.py:411-416 | The guard order of a tick; `DoRunTasks` is proved to perform exactly the stage it picks. |
| Bacnet.IsDevice | cov_client.py:283 | The device test on an object identifier's type; `NonDeviceExactly` shows that a pass skips exactly these objects. |
| CovClient.NonDevice | cov_client.py:280-284 | The objects a pass subscribes to; specified by `NonDeviceSound`, `NonDeviceComplete` and `NonDeviceExactly`. |
| CovClient.PlannedContexts | cov_client.py:280-291 | The contexts one pass creates; specified by `PlanContexts`, `PlanCovers` and `PlanSnoc`, and `DoSubscribeCOV` is proved to create exactly these. |
| CovClient.NonDeviceSound | cov_client.py:280-284 | The objects a pass subscribes to come from the object list, are not devices, and are no more than the list holds. |
| CovClient.NonDeviceComplete | cov_client.py:280-284 | Every non-device object of the list is subscribed to. |
| CovClient.NonDeviceExactly | cov_client.py:280-284 | An object is subscribed to if and only if it is in the list and is not a device. A list without devices is kept whole and in order. |
| CovClient.Numbered | cov_client.py:286-291 | The contexts for a list of objects under consecutive ids from `firstId`; specified by `NumberedAt`. |
| CovClient.NumberedAt | cov_client.py:286-291 | The k-th context of a pass has id `firstId + k`, the k-th object, the target address, the flag and the lifetime. |
| CovClient.PlanContexts | cov_client.py:280-291 | A pass plans one context per non-device object, with consecutive (so distinct) ids from the counter. Each context carries a non-device object of the list, the target address, the confirmed flag and the lifetime. |
| CovClient.PlanCovers | cov_client.py:280-291 | Every non-device object of the list gets a context in the pass. |
| CovClient.SubscribeRequest | cov_client.py:293-307 | The subscribe request for one context; specified by `SubscribeRequestsMatch`. |
| CovClient.SubscribeRequests | cov_client.py:293-314 | The requests of one pass, in order; specified by `SubscribeRequestsMatch` and `RequestsSnoc`. |
| CovClient.SubscribeRequestsMatch | cov_client.py:293-307 | There is one subscribe request per context, in order. Each carries its context's id, object, address, confirmed flag and lifetime. The property variant is used exactly when configured, and it always names the present value. |
| CovClient.PlanSnoc | cov_client.py:280-291 | One more object in the list adds one context under the next id, unless the object is a device, which adds nothing. |
| CovClient.PlanStep | cov_client.py:280-291 | The same step stated for the prefixes the loop walks. |
| CovClient.RequestsSnoc | cov_client.py:293-314 | One more context adds its subscribe request at the end. |
| CovClient.PassSkip | cov_client.py:283-284 | Skipping a device object keeps the loop invariant, with nothing registered or sent. |
| CovClient.PassSubscribe | cov_client.py:286-314 | Registering the next context under the counter and sending its request keeps the loop invariant. |
| CovClient.RegisterNext | cov_client.py:96 | Filing one more context keeps every earlier context registered and registers the new one. |
| CovClient.CovApplication.constructor | cov_client.py:136-166 | The client starts with an empty cache, object list, subscriptions and outbox, and no pending Who-Is. |
| CovClient.CovApplication.Request | cov_client.py:394-399 | The request is sent (appended to the outbox). A Who-Is also becomes the pending request, and nothing else changes it. |
| CovClient.CovApplication.DoRequestDeviceAddress | cov_client.py:233-252 | Exactly one Who-Is is sent, limited to the target instance at both ends, and it is recorded as the pending request. |
| CovClient.CovApplication.DoRequestObjectList | cov_client.py:254-273 | Exactly one ReadProperty of `objectList` is sent, on the target's device object, to its cached address. |
| CovClient.CovApplication.DoSubscribeCOV | cov_client.py:275-314 | The requests sent are exactly the planned pass: one per non-device object, in list order, each under a fresh consecutive id. The counter grows by the number of contexts, and every planned context is registered. Earlier entries are unchanged. |
| CovClient.CovApplication.SubscribeNext | cov_client.py:280-314 | One loop turn moves the pass invariant from `i` objects to `i + 1`. |
| CovClient.CovApplication.NewSubscriptionContext | cov_client.py:286-291 | Creating a context registers it under the counter's value without breaking routing of earlier notifications and acknowledgements. |
| CovClient.CovApplication.SubscribeObject | cov_client.py:286-314 | A non-device object gets a new registered context, and exactly its subscribe request is sent to the target address. |
| CovClient.CovApplication.ObjectListResults | cov_client.py:316-344 | An error or a response other than a ReadProperty acknowledgement leaves the object list unchanged. An acknowledgement replaces it with the decoded list. |
| CovClient.CovApplication.CovResults | cov_client.py:346-369 | On error the object's subscription is marked false. On a simple acknowledgement it is marked true. Any other response leaves `subscriptions` unchanged. |
| CovClient.CovApplication.Indication | cov_client.py:371-392 | The cache changes only when a Who-Is is pending and the APDU is an I-Am from a device. It then caches the source under the announced instance, whichever instance that is. A decoding error is raised if and only if a Who-Is is pending and the I-Am is for a non-device object. |
| CovClient.CovApplication.ConfirmedCOVNotification | cov_client.py:195-217 | A notification that routes to no context raises `unknownSubscription`, delivers nothing and sends no acknowledgement. A routed one is delivered once to its context and acknowledged once. |
| CovClient.CovApplication.UnconfirmedCOVNotification | cov_client.py:219-231 | The notification is delivered once exactly when it routes to a context, and it is dropped otherwise. No response is ever sent. |
| CovClient.CovApplication.DoRunTasks | cov_client.py:408-416 | Each tick performs exactly one stage, in priority order: Who-Is, then object-list read, then subscribe pass, then nothing. The registry changes only in the subscribe stage, and the cache and object list are never changed by a tick. |
| CovClient.PlanSkipsDevice | cov_client.py:283-291 | For a device followed by another object, the pass plans one context, for the other object, under the first id. |
| CovClient.OtherInstanceKeepsDiscovering | cov_client.py:383 | After an I-Am for an instance other than the target is cached, the next tick still asks for the target's address. |
| CovClient.OtherInstanceThenTick | cov_client.py:371-416 | While a Who-Is is pending and the target is unknown, `indication` of a device I-Am for another instance caches that instance's address. The following `do_RunTasks` is then in the discovery stage and sends one more Who-Is for the target. |
| CovClient.ClientWithObjectList | cov_client.py:408-414 | Starting from an empty client, one tick sends Who-Is. The device's I-Am then fills the cache, the next tick reads the object list, and its acknowledgement stores it. |
| CovClient.SubscribeTick | cov_client.py:408-416 | While no subscribe result has arrived, a tick of that client registers a context for the analog input under the counter's current value. It sends exactly that context's subscribe request. |
| CovClient.DuplicateSubscriptionRun | cov_client.py:415-416 | Two ticks before any subscribe result subscribe to the same analog input twice, under ids 1 and 2. |
| ConfigurationApi.RetryFrom | manage_local_points.py:34-51 | The intended policy from one attempt on; specified by `RetryFromStops`, `RetryFromSleepCount` and `RetryFromDelays`. |
| ConfigurationApi.Retry | manage_local_points.py:34-51 | The intended policy from the first attempt; specified by `RetryBounds`, `FirstSuccessReturned`, `OtherErrorRaisedAtOnce` and `NoValueExactly`. |
| ConfigurationApi.RetryOnConnectionError | manage_local_points.py:34-51 | The loop's attempts, sleeps and result equal the reference policy `Retry`. |
| ConfigurationApi.RetryFromStops | manage_local_points.py:36-51 | The loop stops within the limit, and every attempt before the last was non-final. The result is the last attempt's value, or its non-UNAVAILABLE error. UNAVAILABLE is raised only on attempt 5. `None` comes back only after 5 attempts, the fifth of which ended in an unexpected exception; earlier ones may have been UNAVAILABLE. |
| ConfigurationApi.RetryFromSleepCount | manage_local_points.py:42-44 | There is one sleep per UNAVAILABLE attempt made, and none for any other outcome. |
| ConfigurationApi.RetryFromDelays | manage_local_points.py:35-47 | The delays slept double from one to the next. |
| ConfigurationApi.RetryBounds | manage_local_points.py:34-51 | There are between 1 and 5 attempts, one sleep per UNAVAILABLE attempt, and the delays are 1, 2, 4, ... in order. |
| ConfigurationApi.FirstSuccessReturned | manage_local_points.py:38-40 | The first attempt that returns, after only UNAVAILABLE or unexpected outcomes, ends the loop with its value. |
| ConfigurationApi.ValueComesFromLastAttempt | manage_local_points.py:38-40 | A returned value is always the last attempt's, and every earlier attempt was non-final. |
| ConfigurationApi.OtherErrorRaisedAtOnce | manage_local_points.py:48-49 | A gRPC error with another code is re-raised on its own attempt, with no further attempt and no sleep for it. |
| ConfigurationApi.NoValueExactly | manage_local_points.py:50-51 | The wrapper returns `None` if and only if no attempt was final and the fifth ended in an unexpected exception. |
| ConfigurationApi.SuccessOnFifthAttempt | manage_local_points.py:42-47 | Four UNAVAILABLEs and then success give 5 attempts and sleeps 1, 2, 4, 8. |
| ConfigurationApi.FiveUnavailableRaise | manage_local_points.py:42-46 | Five UNAVAILABLEs give sleeps 1, 2, 4, 8, 16 and then the error is raised. |
| ConfigurationApi.RetryFromAsWritten | manage_local_points.py:34-51 | The wrapper as written, with the status test never true; specified by `AsWrittenNeverRetries`. |
| ConfigurationApi.AsWrittenNeverRetries | manage_local_points.py:41-49 | As written, the wrapper never sleeps. It stops at the first attempt that is not an unexpected exception, and an UNAVAILABLE error is raised from that attempt. |
| ConfigurationApi.UnavailableNotRetriedAsWritten | manage_local_points.py:41-49 | For UNAVAILABLE then success, the code as written raises after one attempt, while the intended policy sleeps 1 and returns the value. |
| ConfigurationApi.DirectCall | manage_local_points.py:56-67 | One call that reaches the generated stub directly: one attempt, no sleep; compared with the wrapper by `StubCallNotRetried`. |
| ConfigurationApi.StubCallNotRetried | manage_local_points.py:56-67 | For UNAVAILABLE then success, a call straight to the stub raises after one attempt, while the intended policy sleeps 1 and returns the value. |
| LocalPoints.NextBinaryValue | manage_local_points.py:163-164 | The result is 0 or 1, and it is 1 exactly when the current value is 0. |
| LocalPoints.BinaryToggle | manage_local_points.py:163-164 | On 0 and 1 the rule is a toggle, and applying it twice gives the original value. |
| LocalPoints.NextAnalogValue | manage_local_points.py:166-170 | The result is at most 85. Without a wrap it is the value plus 1.5, and after a wrap it is above 55. |
| LocalPoints.WrapUnique | manage_local_points.py:168-169 | Only one number of wraps brings the value into the band, so the loop's count is the reference one. |
| LocalPoints.GetNextAnalogValue | manage_local_points.py:166-170 | The `while` loop computes the reference value. |
| LocalPoints.AnalogStaysInBand | manage_local_points.py:166-170 | A value in [55, 85] stays in [55, 85]. |
| LocalPoints.AnalogWrapExample | manage_local_points.py:166-170 | 84.5 becomes 56.0. |
| LocalPoints.AnalogOrbitInBand | manage_local_points.py:148-151 | Starting from the created 70.0, an analog point stays in [55, 85] for any number of rounds. |
| LocalPoints.Lookup | manage_local_points.py:142 | The first-match search finds a value if and only if the property occurs in the list. |
| LocalPoints.PointProperties | manage_local_points.py:100-119 | The property map of one point; specified by `PointPropertiesCommon`, `AnalogPointProperties` and `BinaryPointProperties`. |
| LocalPoints.IsAnalogType | manage_local_points.py:100 | `str.startswith("analog")`; `BacnetTypesRules` shows which configured types it selects. |
| LocalPoints.IsBinaryType | manage_local_points.py:105 | `str.startswith("binary")`; `BacnetTypesRules` shows which configured types it selects. |
| LocalPoints.ObjectTypeName | manage_local_points.py:99 | `OBJECT_` followed by the upper-cased type; `CreatedTypeRule` relies on it to find the kind again in `update_values`. |
| LocalPoints.CreateRequestFor | manage_local_points.py:99-129 | The create request of one type: `OBJECT_<TYPE>`, instance 1, and that type's properties; `CreateLocalPoints` sends one per type. |
| LocalPoints.PointPropertiesCommon | manage_local_points.py:111-119 | Every created point carries each property once. Its description is `Test object <type>`, its object identifier is the camelCase of the type, and its name is `test_<type>`. |
| LocalPoints.AnalogPointProperties | manage_local_points.py:100-104 | An analog point starts at real 70.0 with degrees-Fahrenheit units and no state texts. |
| LocalPoints.BinaryPointProperties | manage_local_points.py:105-110 | A binary point starts at enumerated 1 with texts `Active`/`Inactive` and no units. |
| LocalPoints.FailedCreates | manage_local_points.py:131-134 | The types whose create call raised, in order; specified by `FailedCreatesExactly`. |
| LocalPoints.FailedCreatesExactly | manage_local_points.py:131-134 | A point is reported as failed if and only if its own create call raised. |
| LocalPoints.CreateLocalPoints | manage_local_points.py:96-134 | There is one create request per type, in list order, each `OBJECT_<TYPE>` instance 1 with that type's properties. The failures reported are exactly the raised creates, and the loop goes on past them. |
| LocalPoints.UpdateRule | manage_local_points.py:144-153 | The dispatch on the type name; specified by `CreatedTypeRule`, `BacnetTypesRules` and `NextPresentValue`. |
| LocalPoints.CreatedTypeRule | manage_local_points.py:143-151 | A created binary point is updated by the binary rule. A created analog point is updated by the analog rule, provided its type name contains no `y` or `Y`, since `BINARY` is searched first. |
| LocalPoints.BacnetTypesRules | manage_local_points.py:72-79 | All six configured types are analog or binary and get the matching update rule. |
| LocalPoints.EnumeratedField | manage_local_points.py:145 | Reading the `enumerated` field of a protobuf oneof, 0 when another field is set; used by `NextPresentValue`. |
| LocalPoints.RealField | manage_local_points.py:149 | Reading the `real` field of a protobuf oneof, 0.0 when another field is set; used by `NextPresentValue`. |
| LocalPoints.NextPresentValue | manage_local_points.py:142-153 | A missing present value is the `NoPresentValue` error, whatever the type. Otherwise the new value is the binary rule for `BINARY` types and the analog rule for `ANALOG` types, and any other type is the `UnsupportedType` error naming that type. |
| LocalPoints.PresentValueStep | manage_local_points.py:142-153 | The loop body computes the reference new value, with the analog rule's loop. |
| LocalPoints.UpdateRequestFor | manage_local_points.py:156-161 | The update request for one object, carrying only its new present value; specified by `UpdatesShape`. |
| LocalPoints.Updates | manage_local_points.py:140-161 | The update requests of one pass and how it ended; specified by `UpdatesShape`, `UpdatesDone` and `UpdatesStop`. A pass that stops at an object without a new value ends with that object's own error from `NextPresentValue`. A missing present value is reported before the type is looked at. |
| LocalPoints.UpdatesShape | manage_local_points.py:140-161 | The i-th update request is for the i-th listed object and carries only its new present value. A pass that finishes updated every object with no call raised. An unsupported type stops the pass at the first object not updated, and a raised call stops it right after that call. |
| LocalPoints.UpdatesDone | manage_local_points.py:140-161 | The pass finishes if and only if every listed object has a new value and no update call raised. |
| LocalPoints.UpdatesStop | manage_local_points.py:140-161 | The pass ends in one of four ways. No call before the last one sent raised, and none raised at all unless the pass ended with `CallFailed`. A pass ending in `NoPresentValue` or `UnsupportedType` stops at the first object not updated, and that object's `NextPresentValue` is exactly this error. A missing present value names that object. |
| LocalPoints.UpdateValues | manage_local_points.py:140-161 | A failed or missing listing sends nothing and reports why. Otherwise the loop sends exactly the reference updates and ends with their status. |
| LocalPoints.Deletes | manage_local_points.py:91-94 | The delete requests of one pass and how it ended; specified by `DeletesShape`. |
| LocalPoints.DeletesShape | manage_local_points.py:91-94 | There is one delete per listed object, in order. The pass finishes if and only if no call raised. Otherwise it stops right after the call that raised, and no earlier call raised, so that call is the first that did. |
| LocalPoints.ClearLocalPoints | manage_local_points.py:91-94 | A failed or missing listing sends nothing and reports why. Otherwise the loop sends exactly the reference deletes. |
| Naming.Upper | manage_local_points.py:99 | `str.upper` on ASCII; `CreatedTypeRule` uses it to find the kind in `OBJECT_<TYPE>`. |
| Naming.CamelCase | manage_local_points.py:114 | The snake_case to camelCase rewrite; specified by the lemmas below. |
| Naming.CamelCaseRoundTrip | manage_local_points.py:114 | On snake_case names the rewrite leaves no underscore, and turning each capital back into `_` plus its lower case restores the name. |
| Naming.CamelCaseNoUnderscore | manage_local_points.py:114 | A name without underscores is unchanged. |
| Naming.CamelCasePrefix | manage_local_points.py:114 | A stretch without underscores passes through the rewrite unchanged. |
| Naming.IsWordChar | manage_local_points.py:114 | `\w` on ASCII: a letter, a digit or `_`; `CamelCaseUnderscore` requires it of the character after `_`. |
| Naming.UpperChar | manage_local_points.py:114 | `x[1].upper()` on one ASCII character; `CamelCaseUnderscore` shows it is what replaces the match. |
| Naming.CamelCaseUnderscore | manage_local_points.py:114 | `_` followed by a word character becomes that character in upper case. |
| Naming.CamelCaseExample | manage_local_points.py:114 | `analog_input` becomes `analogInput`. |
| Naming.Contains | manage_local_points.py:144 | The literal `re.search` (also line 148); specified by `ContainsAt`, `ContainsSound` and `MissingCharNotContained`. |
| Naming.ContainsAt | manage_local_points.py:144 | A pattern occurring at any position is found by the search. |
| Naming.ContainsSound | manage_local_points.py:144 | The search finds the pattern only where it occurs; with `ContainsAt`, found if and only if it occurs at some position. |
| Naming.MissingCharNotContained | manage_local_points.py:148 | A pattern with a character the text lacks is not found. |

## Left out

- The bacpypes stack:
  - APDU encoding and decoding, `cast_out`, IOCBs and `request_io`;
  - the forwarding to `BIPSimpleApplication` in `indication`, `request` and `confirmation`.

  Requests are appended to `outbox`, and completions and APDUs are inputs to the handlers. `request_io` is taken to pass each APDU through the client's `request` override.
- Console output: `cov_notification`'s decoding and printing (a delivery is recorded instead), the `completed` print paths, the retry wrapper's and manager's messages, and `object_id_to_string`, which only feeds those messages.
- Host and environment plumbing, because they are I/O:
  - `get_ip_address` (sockets);
  - `get_settings` and the parsing of environment variables (the configuration is constructor arguments);
  - the gRPC channel and stubs;
  - `__main__`, the recurring task and the endless update loop.
- Real `sleep`, modelled as the recorded sequence of delays.
- Concurrency between the timer tick and the stack's callbacks: one sequential interleaving of calls is modelled.
- Object types in the client are BACnetObjectType enumeration values rather than the names the stack shows. Only the device type is told apart.
- Python floats are modelled as exact reals, so IEEE-754 rounding is not modelled. The band [55, 85] and the example 84.5 → 56.0 are exact in binary floating point too.
- LocalPoints.GetNextAnalogValue: ends on every input, unlike the float loop at manage_local_points.py:168-169.
  - The float loop never ends for `+inf`.
  - Nor does it end for finite values from about 2^60 on, where `55 + (v - 85)` rounds back to `v`.

  The manager itself only writes values in [55, 85] to the analog points it creates (`AnalogOrbitInBand`), so such a value could come only from another writer.
- Text is modelled as ASCII only: `str.upper` and `\w`. Non-ASCII letters, which Python's Unicode rules would also upper-case or match, are not modelled.
- `UNITS_DEGREES_FAHRENHEIT` is taken to be BACnet's engineering-units value 64. The generated protobuf enum is not part of this model.
- Subscriber process identifiers are unbounded integers, as in Python. The 32-bit width of the field on the wire belongs to the stack.
- CovClient.CovApplication.ConfirmedCOVNotification: returns the `ExecutionError` as a value instead of raising it. The stack's conversion into an Error PDU is not modelled.
- CovClient.CovApplication.DoRequestObjectList: requires the target's address to be cached. The source would raise `KeyError` otherwise, but its only caller, `do_RunTasks`, checks first.
- CovClient.CovApplication.DoSubscribeCOV: requires the target's address to be cached, for the same reason.
- CovClient.CovApplication.CovResults: requires the context to be a registered one. Only the IOCBs of `do_SubscribeCOV` carry this callback, and they carry their own context.
- The generated `ConfigurationStub` is not part of this model. The second Findings row assumes the usual generated `__init__`, which binds each RPC as an instance attribute. The manager's operations take as input each call's result as the wrapper would return it: a value, `None`, or a raised gRPC error.
- LocalPoints.CreateLocalPoints: does not model an exception other than a gRPC error escaping a create call. Under the direct stub calls of the second Findings row, such an exception would pass the `except GrpcError` at lines 133-134 and end the whole pass. Through the wrapper it is swallowed, and the call returns `None`.
- ConfigurationApi.RetryOnConnectionError: the wrapped call is a script with an outcome for each of the 5 possible attempts. Outcomes after the loop stops are never read.
- LocalPoints.CreateLocalPoints: requires every type to be analog or binary, as all six configured types are (`BacnetTypesRules`). For any other type the source would reuse the previous type's present value and extra properties, or, for the first type, fail with an unbound local variable.

## Findings

| source | as written | input that shows it | evidently intended | confidence | as-written member | corrected member |
|---|---|---|---|---|---|---|
| manage_local_points.py:42 | `e.code == grpc.StatusCode.UNAVAILABLE` compares the bound method `code` of gRPC's `_InactiveRpcError` with a status code. That is never true, so every gRPC error, UNAVAILABLE included, is re-raised on the attempt that produced it, with no sleep. | An UNAVAILABLE error on the first attempt, then success. As written the error is raised after 1 attempt; as intended, one sleep of 1 and the second attempt's value. | Call `e.code()`, so that UNAVAILABLE is retried with delays 1, 2, 4, 8, 16. | high; not executed | ConfigurationApi.UnavailableNotRetriedAsWritten | ConfigurationApi.RetryBounds |
| manage_local_points.py:53-67 | `__init__` runs `ConfigurationStub.__init__` through the wrapper. A stub generated by the gRPC tools binds each RPC (`GetLocalObjects`, `CreateLocalObject`, ...) as an instance attribute there. Instance attributes take precedence over the class's wrapper methods of the same names, so every later call goes straight to the stub, bypassing the wrapper. Renaming the wrapper methods alone would not help either. Line 39 looks the RPC up with `getattr(super(), func_name)`, which searches only the classes after `ConfigurationApi`, not the instance. Each attempt would then raise `AttributeError`, which lines 50-51 swallow, and the wrapper would return `None` after 5 attempts. | A single UNAVAILABLE error on a `GetLocalObjects` call, then success. Straight to the stub, it is raised after one attempt; through the wrapper as intended, one sleep of 1 and the value. | Hold the stub in a field. Line 54 becomes `self._stub = ConfigurationStub(channel)`, called directly and not through the wrapper. Line 39 looks the RPC up with `getattr(self._stub, func_name)`, so that every later call goes through the wrapper's retry loop. | medium; not executed: the generated stub module is not part of this model | ConfigurationApi.StubCallNotRetried | ConfigurationApi.RetryBounds |
