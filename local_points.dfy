/**
 * `LocalPointManager`: the simulated points a gateway serves.  It creates one
 * local object per BACnet type, clears them again, and on every round moves
 * each point's present value on by a fixed rule (a toggle for binary points,
 * a wrapping ramp for analog ones).
 *
 * Every remote call is meant to go through the retry wrapper of
 * `ConfigurationApi`; here the result of each call is an input (a
 * `CallResult`), one per call in the order the calls are made, and the
 * requests issued are returned.
 */
module LocalPoints {
  import opened Wrappers
  import opened ConfigurationApi
  import opened Naming

  // ---------------------------------------------------------------------
  // Value rules
  // ---------------------------------------------------------------------

  const AnalogMin: real := 55.0
  const AnalogMax: real := 85.0
  const AnalogStep: real := 1.5
  const Span: real := AnalogMax - AnalogMin

  /** The binary rule: 0 becomes 1 and every other value becomes 0. */
  function NextBinaryValue(current: int): (r: int)
    ensures r == 0 || r == 1
    ensures r == 1 <==> current == 0
  {
    if current == 0 then 1 else 0
  }

  /** On the two values a binary point holds, the rule is a toggle. */
  lemma BinaryToggle(v: int)
    requires v == 0 || v == 1
    ensures NextBinaryValue(v) == 1 - v
    ensures NextBinaryValue(NextBinaryValue(v)) == v
  {
  }

  /**
   * How many times the span is taken off `x` before it is at most the
   * maximum: the least k with x - k * Span <= AnalogMax, in closed form.
   */
  function WrapCount(x: real): (k: nat)
  {
    if x <= AnalogMax then 0 else -((AnalogMax - x) / Span).Floor
  }

  /**
   * The analog rule in closed form: one step up, then back into the band by
   * whole spans.  This is the reference `GetNextAnalogValue` is proved against.
   */
  function NextAnalogValue(current: real): (r: real)
    ensures r <= AnalogMax
    ensures current + AnalogStep <= AnalogMax ==> r == current + AnalogStep
    ensures current + AnalogStep > AnalogMax ==> AnalogMin < r
  {
    var x := current + AnalogStep;
    x - (WrapCount(x) as real) * Span
  }

  /**
   * A value reached from `x` by taking off k spans, that lies in the band
   * and is above the minimum whenever a span was taken off, is the reference
   * value: k is the closed-form count.
   */
  lemma WrapUnique(x: real, k: nat, y: real)
    requires y == x - (k as real) * Span
    requires y <= AnalogMax
    requires k > 0 ==> AnalogMin < y
    ensures k == WrapCount(x)
  {
    if k > 0 {
      var a := (AnalogMax - y) / Span;
      assert 0.0 <= a < 1.0;
      assert (AnalogMax - x) / Span == a - k as real;
      assert a.Floor == 0;
    }
  }

  /**
   * `get_next_analog_value`: the `while` loop that subtracts the span until
   * the value is back under the maximum.
   */
  method GetNextAnalogValue(current: real) returns (next: real)
    ensures next == NextAnalogValue(current)
  {
    next := current + AnalogStep;
    ghost var wraps: nat := 0;
    while next > AnalogMax
      invariant next == current + AnalogStep - (wraps as real) * Span
      invariant wraps > 0 ==> AnalogMin < next
      decreases (next - AnalogMin).Floor
    {
      next := AnalogMin + (next - AnalogMax);
      wraps := wraps + 1;
    }
    WrapUnique(current + AnalogStep, wraps, next);
  }

  /** A value inside the band [55, 85] stays inside it. */
  lemma AnalogStaysInBand(v: real)
    requires AnalogMin <= v <= AnalogMax
    ensures AnalogMin <= NextAnalogValue(v) <= AnalogMax
  {
  }

  /** The worked example of the wrap: 84.5 + 1.5 = 86.0 wraps to 56.0. */
  lemma AnalogWrapExample()
    ensures NextAnalogValue(84.5) == 56.0
  {
    assert (AnalogMax - 86.0) / Span == -1.0 / 30.0;
  }

  /** The value of an analog point after n rounds from its initial 70.0. */
  function AnalogAfter(n: nat): real
  {
    if n == 0 then InitialAnalogValue else NextAnalogValue(AnalogAfter(n - 1))
  }

  /** However many rounds run, an analog point stays in [55, 85]. */
  lemma {:induction false} AnalogOrbitInBand(n: nat)
    ensures AnalogMin <= AnalogAfter(n) <= AnalogMax
  {
    if n > 0 {
      AnalogOrbitInBand(n - 1);
      AnalogStaysInBand(AnalogAfter(n - 1));
    }
  }

  // ---------------------------------------------------------------------
  // Requests
  // ---------------------------------------------------------------------

  datatype PropertyId =
    | PropDescription | PropObjectIdentifier | PropObjectName | PropPresentValue
    | PropUnits | PropInactiveText | PropActiveText
    | OtherProperty(code: nat)

  /** An `ApplicationDataValue`: a protobuf oneof. */
  datatype Value = Real(r: real) | Enumerated(e: int) | CharacterString(s: string)

  datatype PropertyValue = PropertyValue(property: PropertyId, value: Value)

  /** An object id; the type is held as its enum name, e.g. OBJECT_ANALOG_INPUT. */
  datatype ObjectId = ObjectId(objectType: string, instance: nat)

  /** One entry of the listing `GetLocalObjects` returns. */
  datatype LocalObject = LocalObject(objectId: ObjectId, props: seq<PropertyValue>)

  datatype CreateRequest = CreateRequest(objectId: ObjectId, props: seq<PropertyValue>)
  datatype UpdateRequest = UpdateRequest(objectId: ObjectId, props: seq<PropertyValue>)
  datatype DeleteRequest = DeleteRequest(objectId: ObjectId)

  /** The point types the manager creates, in creation order. */
  const BacnetTypes: seq<string> :=
    ["analog_input", "analog_output", "analog_value", "binary_input", "binary_output", "binary_value"]

  const InitialAnalogValue: real := 70.0
  const InitialBinaryValue: int := 1
  const PointInstance: nat := 1

  /**
   * The code of UNITS_DEGREES_FAHRENHEIT, taken to be BACnet's engineering
   * unit degrees-Fahrenheit (64) of ANSI/ASHRAE Standard 135.
   */
  const UnitsDegreesFahrenheit: int := 64

  predicate IsAnalogType(t: string) { |t| >= 6 && t[..6] == "analog" }
  predicate IsBinaryType(t: string) { |t| >= 6 && t[..6] == "binary" }

  /** `OBJECT_<TYPE>`: the enum name a created point gets. */
  function ObjectTypeName(t: string): string
  {
    "OBJECT_" + Upper(t)
  }

  /** The properties a point of type `t` is created with, in insertion order. */
  function PointProperties(t: string): seq<PropertyValue>
    requires IsAnalogType(t) || IsBinaryType(t)
  {
    var presentValue := if IsAnalogType(t) then Real(InitialAnalogValue) else Enumerated(InitialBinaryValue);
    var additional :=
      if IsAnalogType(t) then [PropertyValue(PropUnits, Enumerated(UnitsDegreesFahrenheit))]
      else [PropertyValue(PropInactiveText, CharacterString("Inactive")),
            PropertyValue(PropActiveText, CharacterString("Active"))];
    [PropertyValue(PropDescription, CharacterString("Test object " + t)),
     PropertyValue(PropObjectIdentifier, CharacterString(CamelCase(t))),
     PropertyValue(PropObjectName, CharacterString("test_" + t)),
     PropertyValue(PropPresentValue, presentValue)] + additional
  }

  function CreateRequestFor(t: string): CreateRequest
    requires IsAnalogType(t) || IsBinaryType(t)
  {
    CreateRequest(ObjectId(ObjectTypeName(t), PointInstance), PointProperties(t))
  }

  /** The value of the first property `p` in a property list, as a server reads it. */
  function Lookup(props: seq<PropertyValue>, p: PropertyId): (r: Option<Value>)
    ensures r.Some? <==> exists i :: 0 <= i < |props| && props[i].property == p
  {
    if props == [] then None
    else if props[0].property == p then Some(props[0].value)
    else Lookup(props[1..], p)
  }

  lemma {:induction false} LookupAt(props: seq<PropertyValue>, i: nat)
    requires i < |props|
    requires forall j :: 0 <= j < i ==> props[j].property != props[i].property
    ensures Lookup(props, props[i].property) == Some(props[i].value)
    decreases i
  {
    if i > 0 {
      LookupAt(props[1..], i - 1);
    }
  }

  /**
   * What every created point gets: each property once, a description, the
   * object identifier in camelCase and the name `test_<type>`.
   */
  lemma PointPropertiesCommon(t: string)
    requires IsAnalogType(t) || IsBinaryType(t)
    ensures var props := PointProperties(t);
      && (forall i, j :: 0 <= i < j < |props| ==> props[i].property != props[j].property)
      && Lookup(props, PropDescription) == Some(CharacterString("Test object " + t))
      && Lookup(props, PropObjectIdentifier) == Some(CharacterString(CamelCase(t)))
      && Lookup(props, PropObjectName) == Some(CharacterString("test_" + t))
  {
    var props := PointProperties(t);
    LookupAt(props, 0);
    LookupAt(props, 1);
    LookupAt(props, 2);
  }

  /** An analog point starts at 70.0 with units and no state texts. */
  lemma AnalogPointProperties(t: string)
    requires IsAnalogType(t)
    ensures var props := PointProperties(t);
      && Lookup(props, PropPresentValue) == Some(Real(InitialAnalogValue))
      && Lookup(props, PropUnits) == Some(Enumerated(UnitsDegreesFahrenheit))
      && Lookup(props, PropActiveText) == None
      && Lookup(props, PropInactiveText) == None
  {
    var props := PointProperties(t);
    LookupAt(props, 3);
    LookupAt(props, 4);
  }

  /** A binary point starts active (1) with both state texts and no units. */
  lemma BinaryPointProperties(t: string)
    requires IsBinaryType(t)
    ensures var props := PointProperties(t);
      && Lookup(props, PropPresentValue) == Some(Enumerated(InitialBinaryValue))
      && Lookup(props, PropUnits) == None
      && Lookup(props, PropActiveText) == Some(CharacterString("Active"))
      && Lookup(props, PropInactiveText) == Some(CharacterString("Inactive"))
  {
    var props := PointProperties(t);
    LookupAt(props, 3);
    LookupAt(props, 4);
    LookupAt(props, 5);
  }

  /** The ids of the points whose create call raised, in creation order. */
  function FailedCreates(types: seq<string>, outcomes: seq<CallResult<()>>): seq<ObjectId>
    requires |outcomes| == |types|
  {
    if types == [] then []
    else
      var n := |types| - 1;
      FailedCreates(types[..n], outcomes[..n])
        + (if outcomes[n].Raised? then [ObjectId(ObjectTypeName(types[n]), PointInstance)] else [])
  }

  /** A point is reported exactly when its own create call raised. */
  lemma {:induction false} FailedCreatesExactly(types: seq<string>, outcomes: seq<CallResult<()>>, id: ObjectId)
    requires |outcomes| == |types|
    ensures id in FailedCreates(types, outcomes) <==>
      exists i :: 0 <= i < |types| && outcomes[i].Raised? && id == ObjectId(ObjectTypeName(types[i]), PointInstance)
    decreases |types|
  {
    if types != [] {
      var n := |types| - 1;
      FailedCreatesExactly(types[..n], outcomes[..n], id);
      if id in FailedCreates(types[..n], outcomes[..n]) {
        var i :| 0 <= i < n && outcomes[..n][i].Raised? && id == ObjectId(ObjectTypeName(types[..n][i]), PointInstance);
        assert outcomes[i].Raised? && id == ObjectId(ObjectTypeName(types[i]), PointInstance);
      }
      if exists i :: 0 <= i < |types| && outcomes[i].Raised? && id == ObjectId(ObjectTypeName(types[i]), PointInstance) {
        var i :| 0 <= i < |types| && outcomes[i].Raised? && id == ObjectId(ObjectTypeName(types[i]), PointInstance);
        if i < n {
          assert outcomes[..n][i].Raised? && id == ObjectId(ObjectTypeName(types[..n][i]), PointInstance);
        }
      }
    }
  }

  /**
   * `create_local_points`: one create request per type, in list order, each
   * built from the type alone; a create whose call raised is reported and
   * the loop goes on.
   */
  method CreateLocalPoints(types: seq<string>, outcomes: seq<CallResult<()>>)
    returns (sent: seq<CreateRequest>, failed: seq<ObjectId>)
    requires forall t :: t in types ==> IsAnalogType(t) || IsBinaryType(t)
    requires |outcomes| == |types|
    ensures |sent| == |types|
    ensures forall i :: 0 <= i < |types| ==> sent[i] == CreateRequestFor(types[i])
    ensures failed == FailedCreates(types, outcomes)
  {
    sent, failed := [], [];
    for i := 0 to |types|
      invariant |sent| == i
      invariant forall j :: 0 <= j < i ==> sent[j] == CreateRequestFor(types[j])
      invariant failed == FailedCreates(types[..i], outcomes[..i])
    {
      var request := CreateRequestFor(types[i]);
      sent := sent + [request];
      if outcomes[i].Raised? {
        failed := failed + [request.objectId];
      }
      assert types[..i + 1][..i] == types[..i];
      assert outcomes[..i + 1][..i] == outcomes[..i];
    }
    assert types[..|types|] == types;
    assert outcomes[..|outcomes|] == outcomes;
  }

  // ---------------------------------------------------------------------
  // Updating and clearing
  // ---------------------------------------------------------------------

  datatype Rule = BinaryRule | AnalogRule | Unsupported

  /** The dispatch of `update_values` on the object type's enum name. */
  function UpdateRule(typeName: string): Rule
  {
    if Contains(typeName, "BINARY") then BinaryRule
    else if Contains(typeName, "ANALOG") then AnalogRule
    else Unsupported
  }

  /**
   * The created points are updated by the rule matching their present value:
   * an analog type name without a `y` selects the analog rule, a binary one
   * the binary rule.
   */
  lemma CreatedTypeRule(t: string)
    requires IsAnalogType(t) || IsBinaryType(t)
    requires IsAnalogType(t) ==> 'y' !in t && 'Y' !in t
    ensures UpdateRule(ObjectTypeName(t)) == if IsAnalogType(t) then AnalogRule else BinaryRule
  {
    var name := ObjectTypeName(t);
    assert name[7..13] == Upper(t[..6]);
    if IsAnalogType(t) {
      assert name[7..13] == "ANALOG";
      ContainsAt(name, "ANALOG", 7);
      assert 'Y' in "BINARY";
      forall i | 0 <= i < |name| ensures name[i] != 'Y' {
        if i >= 7 {
          assert name[i] == UpperChar(t[i - 7]);
          assert t[i - 7] != 'y' && t[i - 7] != 'Y';
        }
      }
      MissingCharNotContained(name, "BINARY", 'Y');
    } else {
      assert name[7..13] == "BINARY";
      ContainsAt(name, "BINARY", 7);
    }
  }

  /** All six types the manager creates get the rule matching their kind. */
  lemma BacnetTypesRules()
    ensures forall t :: t in BacnetTypes ==> IsAnalogType(t) || IsBinaryType(t)
    ensures forall t :: t in BacnetTypes ==>
      UpdateRule(ObjectTypeName(t)) == if IsAnalogType(t) then AnalogRule else BinaryRule
  {
    forall t | t in BacnetTypes
      ensures IsAnalogType(t) || IsBinaryType(t)
      ensures UpdateRule(ObjectTypeName(t)) == if IsAnalogType(t) then AnalogRule else BinaryRule
    {
      CreatedTypeRule(t);
    }
  }

  /** The `enumerated` field of a protobuf oneof: 0 when another field is set. */
  function EnumeratedField(v: Value): int { if v.Enumerated? then v.e else 0 }

  /** The `real` field of a protobuf oneof: 0.0 when another field is set. */
  function RealField(v: Value): real { if v.Real? then v.r else 0.0 }

  datatype UpdateStatus =
    | Done                               // every listed object was handled
    | ListingFailed(error: GrpcError)    // GetLocalObjects raised
    | ListingMissing                     // GetLocalObjects returned None: `.objects` raises
    | NoPresentValue(objectId: ObjectId) // `next(...)` raised StopIteration
    | UnsupportedType(typeName: string)  // ValueError
    | CallFailed(error: GrpcError)       // the update or delete call raised

  /** The new present value of one listed object, or why there is none. */
  function NextPresentValue(obj: LocalObject): (r: Result<Value, UpdateStatus>)
    ensures r.Ok? ==> Lookup(obj.props, PropPresentValue).Some?
    ensures r.Ok? && UpdateRule(obj.objectId.objectType) == BinaryRule ==>
      r.value == Enumerated(NextBinaryValue(EnumeratedField(Lookup(obj.props, PropPresentValue).value)))
    ensures r.Ok? && UpdateRule(obj.objectId.objectType) == AnalogRule ==>
      r.value == Real(NextAnalogValue(RealField(Lookup(obj.props, PropPresentValue).value)))
    ensures Lookup(obj.props, PropPresentValue).None? ==> r == Err(NoPresentValue(obj.objectId))
    ensures Lookup(obj.props, PropPresentValue).Some? && UpdateRule(obj.objectId.objectType) == Unsupported ==>
      r == Err(UnsupportedType(obj.objectId.objectType))
    ensures r.Err? ==>
      r.error == NoPresentValue(obj.objectId) || r.error == UnsupportedType(obj.objectId.objectType)
    ensures r.Err? && Lookup(obj.props, PropPresentValue).Some? ==>
      UpdateRule(obj.objectId.objectType) == Unsupported
  {
    match Lookup(obj.props, PropPresentValue)
    case None => Err(NoPresentValue(obj.objectId))
    case Some(current) =>
      match UpdateRule(obj.objectId.objectType)
      case BinaryRule => Ok(Enumerated(NextBinaryValue(EnumeratedField(current))))
      case AnalogRule => Ok(Real(NextAnalogValue(RealField(current))))
      case Unsupported => Err(UnsupportedType(obj.objectId.objectType))
  }

  /** The update request for one object: its present value and nothing else. */
  function UpdateRequestFor(obj: LocalObject, v: Value): UpdateRequest
  {
    UpdateRequest(obj.objectId, [PropertyValue(PropPresentValue, v)])
  }

  /**
   * The updates issued for `objs` when the update calls end as `outcomes`
   * say, stopping at the first object that cannot be updated or whose call
   * raised.
   */
  function Updates(objs: seq<LocalObject>, outcomes: seq<CallResult<()>>): (seq<UpdateRequest>, UpdateStatus)
    requires |objs| <= |outcomes|
  {
    if objs == [] then ([], Done)
    else match NextPresentValue(objs[0])
      case Err(e) => ([], e)
      case Ok(v) =>
        if outcomes[0].Raised? then ([UpdateRequestFor(objs[0], v)], CallFailed(outcomes[0].error))
        else
          var rest := Updates(objs[1..], outcomes[1..]);
          ([UpdateRequestFor(objs[0], v)] + rest.0, rest.1)
  }

  /**
   * What the update pass issues: the i-th request is for the i-th listed
   * object and carries only its new present value; a pass that finishes
   * updated every object; one stopped by an unsupported type names the type
   * of the first object not updated.
   */
  lemma {:induction false} UpdatesShape(objs: seq<LocalObject>, outcomes: seq<CallResult<()>>)
    requires |objs| <= |outcomes|
    ensures var (sent, status) := Updates(objs, outcomes);
      && |sent| <= |objs|
      && (forall i :: 0 <= i < |sent| ==>
            NextPresentValue(objs[i]).Ok? && sent[i] == UpdateRequestFor(objs[i], NextPresentValue(objs[i]).value))
      && (status == Done ==> |sent| == |objs| && forall i :: 0 <= i < |objs| ==> !outcomes[i].Raised?)
      && (status.UnsupportedType? ==>
            && |sent| < |objs|
            && status.typeName == objs[|sent|].objectId.objectType
            && UpdateRule(status.typeName) == Unsupported)
      && (status.CallFailed? ==> 0 < |sent| && outcomes[|sent| - 1] == Raised(status.error))
    decreases |objs|
  {
    if objs != [] {
      match NextPresentValue(objs[0])
      case Err(e) =>
      case Ok(v) =>
        if !outcomes[0].Raised? {
          UpdatesShape(objs[1..], outcomes[1..]);
          var rest := Updates(objs[1..], outcomes[1..]);
          var (sent, status) := Updates(objs, outcomes);
          assert sent == [UpdateRequestFor(objs[0], v)] + rest.0;
          forall i | 0 <= i < |sent| ensures
            NextPresentValue(objs[i]).Ok? && sent[i] == UpdateRequestFor(objs[i], NextPresentValue(objs[i]).value)
          {
            if i > 0 { assert sent[i] == rest.0[i - 1] && objs[i] == objs[1..][i - 1]; }
          }
          if status == Done {
            forall i | 0 <= i < |objs| ensures !outcomes[i].Raised? {
              if i > 0 { assert outcomes[i] == outcomes[1..][i - 1]; }
            }
          }
        }
    }
  }

  /**
   * The update pass finishes exactly when every object has a new value and
   * no call raised.
   */
  lemma {:induction false} UpdatesDone(objs: seq<LocalObject>, outcomes: seq<CallResult<()>>)
    requires |objs| <= |outcomes|
    ensures Updates(objs, outcomes).1 == Done <==>
      forall i :: 0 <= i < |objs| ==> NextPresentValue(objs[i]).Ok? && !outcomes[i].Raised?
    decreases |objs|
  {
    if objs != [] && NextPresentValue(objs[0]).Ok? && !outcomes[0].Raised? {
      UpdatesDone(objs[1..], outcomes[1..]);
      assert Updates(objs, outcomes).1 == Updates(objs[1..], outcomes[1..]).1;
      if forall i :: 0 <= i < |objs| ==> NextPresentValue(objs[i]).Ok? && !outcomes[i].Raised? {
        forall i | 0 <= i < |objs[1..]|
          ensures NextPresentValue(objs[1..][i]).Ok? && !outcomes[1..][i].Raised?
        {
          assert objs[1..][i] == objs[i + 1] && outcomes[1..][i] == outcomes[i + 1];
        }
      } else {
        var i :| 0 <= i < |objs| && !(NextPresentValue(objs[i]).Ok? && !outcomes[i].Raised?);
        assert objs[1..][i - 1] == objs[i] && outcomes[1..][i - 1] == outcomes[i];
      }
    }
  }

  /**
   * Where an unfinished update pass stops: at the first object that has no
   * new value, with that object's own error (a missing present value is
   * reported before the type is looked at), or right after the first call
   * that raised; no call before the last one sent raised.
   */
  lemma {:induction false} UpdatesStop(objs: seq<LocalObject>, outcomes: seq<CallResult<()>>)
    requires |objs| <= |outcomes|
    ensures var (sent, status) := Updates(objs, outcomes);
      && |sent| <= |objs|
      && (status == Done || status.NoPresentValue? || status.UnsupportedType? || status.CallFailed?)
      && (forall i :: 0 <= i < |sent| - 1 ==> !outcomes[i].Raised?)
      && (!status.CallFailed? ==> forall i :: 0 <= i < |sent| ==> !outcomes[i].Raised?)
      && (status.NoPresentValue? || status.UnsupportedType? ==>
            && |sent| < |objs|
            && NextPresentValue(objs[|sent|]) == Err(status))
      && (status.NoPresentValue? ==>
            && status.objectId == objs[|sent|].objectId
            && Lookup(objs[|sent|].props, PropPresentValue).None?)
    decreases |objs|
  {
    if objs != [] && NextPresentValue(objs[0]).Ok? && !outcomes[0].Raised? {
      UpdatesStop(objs[1..], outcomes[1..]);
      var rest := Updates(objs[1..], outcomes[1..]);
      var (sent, status) := Updates(objs, outcomes);
      assert |sent| == 1 + |rest.0| && status == rest.1;
      forall i | 0 < i < |objs| ensures objs[i] == objs[1..][i - 1] && outcomes[i] == outcomes[1..][i - 1] {
      }
    }
  }

  /**
   * The body of the `update_values` loop up to the update call: look up the
   * present value, pick the rule by the type name and compute the new value.
   */
  method PresentValueStep(obj: LocalObject) returns (r: Result<Value, UpdateStatus>)
    ensures r == NextPresentValue(obj)
  {
    var present := Lookup(obj.props, PropPresentValue);
    if present.None? {
      return Err(NoPresentValue(obj.objectId));
    }
    var rule := UpdateRule(obj.objectId.objectType);
    if rule == BinaryRule {
      r := Ok(Enumerated(NextBinaryValue(EnumeratedField(present.value))));
    } else if rule == AnalogRule {
      var v := GetNextAnalogValue(RealField(present.value));
      r := Ok(Real(v));
    } else {
      r := Err(UnsupportedType(obj.objectId.objectType));
    }
  }

  /**
   * `update_values`: list the local objects, then for each one look up its
   * present value, pick the rule by its type name and send the update.  A
   * missing present value, an unsupported type or a raised call ends the
   * pass with that error.
   */
  method UpdateValues(listing: CallResult<seq<LocalObject>>, outcomes: seq<CallResult<()>>)
    returns (sent: seq<UpdateRequest>, status: UpdateStatus)
    requires listing.Value? ==> |listing.value| <= |outcomes|
    ensures listing.Raised? ==> sent == [] && status == ListingFailed(listing.error)
    ensures listing == NoValue ==> sent == [] && status == ListingMissing
    ensures listing.Value? ==> (sent, status) == Updates(listing.value, outcomes)
  {
    sent := [];
    match listing
    case Raised(e) => return sent, ListingFailed(e);
    case NoValue => return sent, ListingMissing;
    case Value(objs) =>
      var i := 0;
      assert objs[0..] == objs && outcomes[0..] == outcomes;
      assert [] + Updates(objs, outcomes).0 == Updates(objs, outcomes).0;
      while i < |objs|
        invariant 0 <= i <= |objs|
        invariant Updates(objs, outcomes).0 == sent + Updates(objs[i..], outcomes[i..]).0
        invariant Updates(objs, outcomes).1 == Updates(objs[i..], outcomes[i..]).1
      {
        var obj := objs[i];
        assert objs[i..][0] == obj && outcomes[i..][0] == outcomes[i];
        var next := PresentValueStep(obj);
        if next.Err? {
          assert Updates(objs[i..], outcomes[i..]) == ([], next.error);
          assert sent + [] == sent;
          return sent, next.error;
        }
        sent := sent + [UpdateRequestFor(obj, next.value)];
        if outcomes[i].Raised? {
          return sent, CallFailed(outcomes[i].error);
        }
        assert objs[i..][1..] == objs[i + 1..];
        assert outcomes[i..][1..] == outcomes[i + 1..];
        i := i + 1;
      }
      assert objs[i..] == [];
      assert sent + [] == sent;
      status := Done;
  }

  /** The deletes issued for `objs`, stopping at the first call that raised. */
  function Deletes(objs: seq<LocalObject>, outcomes: seq<CallResult<()>>): (seq<DeleteRequest>, UpdateStatus)
    requires |objs| <= |outcomes|
  {
    if objs == [] then ([], Done)
    else if outcomes[0].Raised? then ([DeleteRequest(objs[0].objectId)], CallFailed(outcomes[0].error))
    else
      var rest := Deletes(objs[1..], outcomes[1..]);
      ([DeleteRequest(objs[0].objectId)] + rest.0, rest.1)
  }

  /**
   * One delete per listed object, in listing order: a pass that finishes
   * deleted every object; otherwise it stopped right after the call that
   * raised.
   */
  lemma {:induction false} DeletesShape(objs: seq<LocalObject>, outcomes: seq<CallResult<()>>)
    requires |objs| <= |outcomes|
    ensures var (sent, status) := Deletes(objs, outcomes);
      && (status == Done || status.CallFailed?)
      && (if objs == [] then sent == [] else 0 < |sent| <= |objs|)
      && (forall i :: 0 <= i < |sent| ==> sent[i] == DeleteRequest(objs[i].objectId))
      && (status == Done <==> forall i :: 0 <= i < |objs| ==> !outcomes[i].Raised?)
      && (status == Done ==> |sent| == |objs|)
      && (status.CallFailed? ==> outcomes[|sent| - 1] == Raised(status.error))
      && (forall i :: 0 <= i < |sent| - 1 ==> !outcomes[i].Raised?)
    decreases |objs|
  {
    if objs != [] && !outcomes[0].Raised? {
      DeletesShape(objs[1..], outcomes[1..]);
      var rest := Deletes(objs[1..], outcomes[1..]);
      var (sent, status) := Deletes(objs, outcomes);
      forall i | 0 < i < |sent| ensures sent[i] == DeleteRequest(objs[i].objectId) {
        assert sent[i] == rest.0[i - 1] && objs[i] == objs[1..][i - 1];
      }
      forall i | 0 < i < |sent| - 1 ensures !outcomes[i].Raised? {
        assert outcomes[i] == outcomes[1..][i - 1];
      }
      if forall i :: 0 <= i < |objs| ==> !outcomes[i].Raised? {
        forall i | 0 <= i < |objs[1..]| ensures !outcomes[1..][i].Raised? {
          assert outcomes[1..][i] == outcomes[i + 1];
        }
      } else {
        var i :| 0 <= i < |objs| && outcomes[i].Raised?;
        assert outcomes[1..][i - 1].Raised?;
      }
    }
  }

  /**
   * `clear_local_points`: list the local objects and delete each one; a
   * raised call ends the pass.
   */
  method ClearLocalPoints(listing: CallResult<seq<LocalObject>>, outcomes: seq<CallResult<()>>)
    returns (sent: seq<DeleteRequest>, status: UpdateStatus)
    requires listing.Value? ==> |listing.value| <= |outcomes|
    ensures listing.Raised? ==> sent == [] && status == ListingFailed(listing.error)
    ensures listing == NoValue ==> sent == [] && status == ListingMissing
    ensures listing.Value? ==> (sent, status) == Deletes(listing.value, outcomes)
  {
    sent := [];
    match listing
    case Raised(e) => return sent, ListingFailed(e);
    case NoValue => return sent, ListingMissing;
    case Value(objs) =>
      var i := 0;
      assert objs[0..] == objs && outcomes[0..] == outcomes;
      assert [] + Deletes(objs, outcomes).0 == Deletes(objs, outcomes).0;
      while i < |objs|
        invariant 0 <= i <= |objs|
        invariant Deletes(objs, outcomes).0 == sent + Deletes(objs[i..], outcomes[i..]).0
        invariant Deletes(objs, outcomes).1 == Deletes(objs[i..], outcomes[i..]).1
      {
        sent := sent + [DeleteRequest(objs[i].objectId)];
        if outcomes[i].Raised? {
          return sent, CallFailed(outcomes[i].error);
        }
        assert objs[i..][1..] == objs[i + 1..];
        assert outcomes[i..][1..] == outcomes[i + 1..];
        i := i + 1;
      }
      assert objs[i..] == [];
      assert sent + [] == sent;
      status := Done;
  }
}
