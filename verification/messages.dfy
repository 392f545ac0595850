/**
 * The message model: the remote-object handle `RemoteInstance`, the three wire
 * messages (Call, Return, Beacon) and the Java values they carry.
 */
module Messages {
  import opened Wrappers
  import JavaString

  /**
   * Identity of an object exported on one side of a connection: its instance id
   * (0 for objects registered as global) and the name of the exported interface.
   * Immutable; the fields are the getters `getInstanceID` and `getClassName`.
   */
  datatype RemoteInstance = RemoteInstance(instanceId: int, className: string)
  {
    /** `equals(obj)`: true exactly for a `RemoteInstance` with the same id and an equal class name. */
    predicate Equals(obj: Value)
      ensures Equals(obj) <==> obj == Handle(this)
    {
      match obj
      case Handle(ri) => instanceId == ri.instanceId && className == ri.className
      case _ => false
    }

    /** `hashCode()`: the hash of the class name only. */
    function HashCode(): (h: int)
      ensures JavaString.IsInt(h)
    {
      JavaString.HashCode(className)
    }
  }

  /** Exceptions the runtime raises or carries inside a fault Return. */
  datatype Throwable =
    | NoImplementation(className: string)   // LipeRMIException "Class ... doesn't have implementation"
    | NotAssignable(iface: string)          // LipeRMIException "Class ... is not assignable from ..."
    | UnknownMessageType                    // LipeRMIException "Unknown IRemoteMessage type"
    | ConnectionAborted                     // LipeRMIException "Connection aborted"
    | NoSuchMethod(request: Option<string>) // NoSuchMethodException(request)
    | NullPointer                           // NullPointerException
    | IndexOutOfBounds                      // StringIndexOutOfBoundsException
    | ClassNotFound(name: string)           // ClassNotFoundException from Class.forName
    | Raised(name: string)                  // any other exception, e.g. thrown by application code

  /** A stub built for a remote instance (a dynamic proxy); only its identity and interface matter. */
  class Proxy {
    /** The first interface the proxy class implements. */
    const iface: string

    constructor (iface: string)
      ensures this.iface == iface
    {
      this.iface := iface;
    }
  }

  /** A Java value crossing the call boundary. */
  datatype Value =
    | Null
    | Obj(addr: nat)              // a local object, identified by its address
    | Prim(n: int)                // serializable data such as a boxed primitive
    | Handle(ri: RemoteInstance)  // a RemoteInstance standing in for a remote object
    | Exc(t: Throwable)           // a Throwable
    | Stub(proxy: Proxy)          // a proxy for a remote object

  /**
   * A method call: target instance, the short method signature (None once the
   * peer has cached it), the method-id hash, the argument array (shared, and
   * rewritten in place by the receiving connection) and the call id.
   */
  datatype RemoteCall = RemoteCall(
    remoteInstance: RemoteInstance,
    methodId: Option<string>,
    methodIdHash: int,
    args: array?<Value>,
    callId: int)

  /** A method return: whether it is a fault, the returned value or exception, and the call id it answers. */
  datatype RemoteReturn = RemoteReturn(throwing: bool, ret: Value, callId: int)

  /** What the protocol filter hands the reader: one of the three messages, or anything else. */
  datatype Message =
    | CallMsg(call: RemoteCall)
    | ReturnMsg(result: RemoteReturn)
    | BeaconMsg(id: int)
    | OtherMsg

  /** `equals` is an equivalence relation: reflexive, symmetric and transitive. */
  lemma EqualsIsEquivalence(a: RemoteInstance, b: RemoteInstance, c: RemoteInstance)
    ensures a.Equals(Handle(a))
    ensures a.Equals(Handle(b)) <==> b.Equals(Handle(a))
    ensures a.Equals(Handle(b)) && b.Equals(Handle(c)) ==> a.Equals(Handle(c))
  {
  }

  /** `equals` is false for every object that is not a `RemoteInstance`. */
  lemma EqualsOnlyInstances(a: RemoteInstance, obj: Value)
    requires !obj.Handle?
    ensures !a.Equals(obj)
  {
  }

  /** Equal instances have equal hash codes, and instances differing only in id share one. */
  lemma EqualsAgreesWithHashCode(a: RemoteInstance, obj: Value)
    ensures a.Equals(obj) ==> obj.ri.HashCode() == a.HashCode()
    ensures obj.Handle? && obj.ri.className == a.className ==> obj.ri.HashCode() == a.HashCode()
  {
  }

  /** The getters return exactly what the constructor was given. */
  lemma RemoteInstanceGetters(instanceId: int, className: string)
    ensures RemoteInstance(instanceId, className).instanceId == instanceId
    ensures RemoteInstance(instanceId, className).className == className
  {
  }

  /** The getters of a call return exactly what the constructor was given, a null method id included. */
  lemma RemoteCallGetters(ri: RemoteInstance, methodId: Option<string>, hash: int, args: array?<Value>, callId: int)
    ensures var c := RemoteCall(ri, methodId, hash, args, callId);
      c.remoteInstance == ri && c.methodId == methodId && c.methodIdHash == hash
      && c.args == args && c.callId == callId
  {
  }
}
