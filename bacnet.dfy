/**
 * The BACnet values the COV client exchanges with the protocol stack
 * (ANSI/ASHRAE Standard 135: Who-Is/I-Am in clause 16.10, ReadProperty in
 * clause 15.5, SubscribeCOV and COV notifications in clause 13).  Encoding
 * and decoding belong to the stack; here each APDU is a plain value holding
 * the fields the client reads or sets.
 */
module Bacnet {
  import opened Wrappers

  /** A network address as the stack hands it over; opaque to the client. */
  datatype Address = Address(handle: nat)

  /**
   * An object identifier: the object type, as its BACnetObjectType
   * enumeration value (clause 21), and the instance number.  The stack
   * shows the type by its name (`"device"`, `"analogInput"`); only the
   * device type is told apart here.
   */
  datatype ObjectId = ObjectId(objectType: nat, instance: nat)

  const AnalogInputType: nat := 0
  const DeviceType: nat := 8

  predicate IsDevice(o: ObjectId) { o.objectType == DeviceType }

  datatype PropertyId = PresentValue | ObjectList

  /** A request the client sends. */
  datatype Request =
    | WhoIs(lowLimit: nat, highLimit: nat)   // sent to the local broadcast address
    | ReadProperty(destination: Address, objectId: ObjectId, property: PropertyId)
    | SubscribeCOV(destination: Address, subscriberProcessId: nat, monitoredObject: ObjectId,
                   monitoredProperty: Option<PropertyId>, issueConfirmed: bool, lifetime: int)
      // `monitoredProperty` is present for SubscribeCOVProperty, absent for SubscribeCOV

  /** A COV notification, confirmed or unconfirmed, as the stack delivers it. */
  datatype Notification = Notification(source: Address, subscriberProcessId: nat,
                                       initiatingDevice: ObjectId, monitoredObject: ObjectId)

  /** A response the client sends back to a confirmed notification. */
  datatype Reply = SimpleAck(to: Notification)

  /** An unconfirmed APDU passed up through `indication`. */
  datatype Indication = IAm(source: Address, deviceType: nat, instance: nat) | OtherIndication

  /** How the IOCB of a confirmed request completed. */
  datatype IoOutcome =
    | IoError                                   // error, reject or abort
    | SimpleAckResponse
    | ReadPropertyAck(objectList: seq<ObjectId>) // the decoded array of object identifiers
    | OtherResponse
}
