/**
 * The call delegator and export registry: the table from remote instances to
 * local objects, the reverse lookup by identity, the delegation of an incoming
 * call to a method of the target object, and the two static helpers that turn a
 * method's text into a short call name and that name into a method-id hash.
 */
module CallHandling {
  import opened Wrappers
  import opened JavaString
  import opened Messages
  import opened Reflection
  import opened IdentifierCache

  // ---------------------------------------------------------------------------
  // generateCallName: specification

  /** tokens[i] + "." + ... + tokens[j-1] + ".", as the inner loop appends it. */
  function Dotted(tokens: seq<string>, i: nat, j: nat): string
    requires i <= j <= |tokens|
    decreases j
  {
    if j == i then "" else Dotted(tokens, i, j - 1) + tokens[j - 1] + "."
  }

  /** What token `k` adds to the call name: the tokens from `k` on, rejoined, if it holds a '('. */
  function Contribution(tokens: seq<string>, k: nat): string
    requires k < |tokens|
  {
    if '(' in tokens[k] then JoinDots(tokens[k..]) else ""
  }

  /** The contributions of tokens[..i], in order. */
  function Assembled(tokens: seq<string>, i: nat): string
    requires i <= |tokens|
  {
    if i == 0 then "" else Assembled(tokens, i - 1) + Contribution(tokens, i - 1)
  }

  /** The short call name of a method's text. */
  function CallName(methodId: string): string {
    var tokens := SplitDots(methodId);
    Assembled(tokens, |tokens|)
  }

  lemma {:induction false} DottedCons(tokens: seq<string>, i: nat, j: nat)
    requires i < j <= |tokens|
    ensures Dotted(tokens, i, j) == tokens[i] + "." + Dotted(tokens, i + 1, j)
    decreases j
  {
    if j > i + 1 {
      DottedCons(tokens, i, j - 1);
    }
  }

  /** The inner loop's appends followed by the last token rejoin tokens[i..] with dots. */
  lemma {:induction false} DottedJoin(tokens: seq<string>, i: nat)
    requires i < |tokens|
    ensures Dotted(tokens, i, |tokens| - 1) + tokens[|tokens| - 1] == JoinDots(tokens[i..])
    decreases |tokens| - i
  {
    var n := |tokens|;
    if i == n - 1 {
      assert tokens[i..] == [tokens[n - 1]];
    } else {
      DottedJoin(tokens, i + 1);
      DottedCons(tokens, i, n - 1);
      assert tokens[i..][1..] == tokens[i + 1..];
    }
  }

  /** Tokens without '(' contribute nothing. */
  lemma {:induction false} AssembledNoParen(tokens: seq<string>, i: nat)
    requires i <= |tokens|
    requires forall m :: 0 <= m < i ==> '(' !in tokens[m]
    ensures Assembled(tokens, i) == ""
  {
    if i > 0 {
      AssembledNoParen(tokens, i - 1);
    }
  }

  /** With '(' in token `k` only, the prefix up to and past `k` assembles to "" and to tokens[k..]. */
  lemma {:induction false} AssembledSingleParen(tokens: seq<string>, k: nat, i: nat)
    requires k < |tokens| && '(' in tokens[k]
    requires forall m :: 0 <= m < |tokens| && m != k ==> '(' !in tokens[m]
    requires i <= |tokens|
    ensures Assembled(tokens, i) == if i <= k then "" else JoinDots(tokens[k..])
  {
    if i > 0 {
      AssembledSingleParen(tokens, k, i - 1);
    }
  }

  /**
   * When exactly one dot-separated token of the text holds a '(', the call name
   * is that token and all later ones, rejoined with dots.
   */
  lemma CallNameOfSingleParen(methodId: string, k: nat)
    requires var tokens := SplitDots(methodId);
      k < |tokens| && '(' in tokens[k]
      && forall m :: 0 <= m < |tokens| && m != k ==> '(' !in tokens[m]
    ensures CallName(methodId) == JoinDots(SplitDots(methodId)[k..])
  {
    var tokens := SplitDots(methodId);
    AssembledSingleParen(tokens, k, |tokens|);
  }

  /** When no token holds a '(', the call name is empty. */
  lemma CallNameWithoutParen(methodId: string)
    requires '(' !in methodId
    ensures CallName(methodId) == ""
  {
    var tokens := SplitDots(methodId);
    forall m | 0 <= m < |tokens| ensures '(' !in tokens[m] {
      TokensWithin(methodId, m);
    }
    AssembledNoParen(tokens, |tokens|);
  }

  /** Every character of a token occurs in the split string. */
  lemma TokensWithin(s: string, m: nat)
    requires m < |SplitDots(s)|
    ensures forall c :: c in SplitDots(s)[m] ==> c in s
  {
    if '.' in s {
      var ps := Pieces(s);
      PiecesWithin(s);
      assert SplitDots(s)[m] == ps[m];
    }
  }

  lemma {:induction false} PiecesWithin(s: string)
    ensures forall m, c :: 0 <= m < |Pieces(s)| && c in Pieces(s)[m] ==> c in s
  {
    if s != [] {
      PiecesWithin(s[1..]);
      var rest := Pieces(s[1..]);
      forall m, c | 0 <= m < |Pieces(s)| && c in Pieces(s)[m] ensures c in s {
        assert forall x :: x in s[1..] ==> x in s;
        if s[0] != '.' && m == 0 {
          assert Pieces(s)[0] == [s[0]] + rest[0];
        } else if s[0] != '.' {
          assert Pieces(s)[m] == rest[m];
        } else if m > 0 {
          assert Pieces(s)[m] == rest[m - 1];
        }
      }
    }
  }

  // ---------------------------------------------------------------------------
  // Method lookup in delegateCall: specification

  /** The index of the first method whose text ends with `request`, or |methods| if there is none. */
  function FirstMatchIndex(methods: seq<JMethod>, request: string): (k: nat)
    ensures k <= |methods|
    ensures forall j :: 0 <= j < k ==> !EndsWith(methods[j].text, request)
    ensures k < |methods| ==> EndsWith(methods[k].text, request)
  {
    if methods == [] then 0
    else if EndsWith(methods[0].text, request) then 0
    else 1 + FirstMatchIndex(methods[1..], request)
  }

  /** The first method whose text ends with `request`, or null. */
  function FirstEndingWith(methods: seq<JMethod>, request: string): Option<JMethod> {
    var k := FirstMatchIndex(methods, request);
    if k < |methods| then Some(methods[k]) else None
  }

  /**
   * Which method delegation uses: the cached one if any; otherwise a search of
   * `methods`, which throws NullPointerException when there is no request text
   * and something to compare it with.
   */
  function Resolve(cached: Option<JMethod>, request: Option<string>, methods: seq<JMethod>): Result<Option<JMethod>, Throwable> {
    if cached.Some? then Success(cached)
    else if request.None? then (if methods == [] then Success(None) else Failure(NullPointer))
    else Success(FirstEndingWith(methods, request.value))
  }

  /** The arguments handed to `Method.invoke`: a null array is no arguments. */
  function ArgValues(args: array?<Value>): seq<Value>
    reads args
  {
    if args == null then [] else args[..]
  }

  /**
   * What delegation returns once a method `m` was found: a fault carrying what
   * the invocation threw, or the result, exported first if the method returns an
   * interface, and replaced by its handle when it is an exported object.
   */
  predicate InvocationReturn(before: map<RemoteInstance, Value>, after: map<RemoteInstance, Value>,
                             ret: RemoteReturn, m: JMethod, impl: Value, args: seq<Value>,
                             callId: int, rt: Runtime, freshId: int)
  {
    && ret.callId == callId
    && match rt.invoke(m, impl, args)
       case Threw(e) => ret.throwing && ret.ret == e && after == before
       case Returned(v) =>
         var exportIt := m.returnInterface.Some? && v != Null;
         if exportIt && !rt.isAssignable(m.returnInterface.value, v) then
           ret.throwing && ret.ret == Exc(NotAssignable(m.returnInterface.value)) && after == before
         else
           && after == (if exportIt then before[RemoteInstance(freshId, m.returnInterface.value) := v] else before)
           && !ret.throwing
           && if v != Null && v in after.Values
              then ret.ret.Handle? && ret.ret.ri in after && after[ret.ret.ri] == v
              else ret.ret == v
  }

  class CallHandler {
    /** All exported objects. */
    var exportedObjects: map<RemoteInstance, Value>

    /** No entry of the table is null: exporting null is refused with a NullPointerException. */
    ghost predicate Valid()
      reads this
    {
      Null !in exportedObjects.Values
    }

    constructor ()
      ensures Valid()
      ensures exportedObjects == map[]
    {
      exportedObjects := map[];
    }

    /**
     * `generateCallName`: split the text on '.', and for every token holding a
     * '(' append that token and all later ones, rejoined with '.'.
     */
    static method GenerateCallName(methodId: string) returns (call: string)
      ensures call == CallName(methodId)
    {
      var tokens := SplitDots(methodId);
      call := "";
      var i := 0;
      while i < |tokens|
        invariant 0 <= i <= |tokens|
        invariant call == Assembled(tokens, i)
      {
        if '(' in tokens[i] {
          var rest := RejoinFrom(tokens, i);
          call := call + rest;
        }
        i := i + 1;
      }
    }

    /** The inner loop of `generateCallName`: tokens[i..] appended one by one, a '.' after each but the last. */
    static method RejoinFrom(tokens: seq<string>, i: nat) returns (text: string)
      requires i < |tokens|
      ensures text == JoinDots(tokens[i..])
    {
      text := "";
      var j := i;
      while j < |tokens| - 1
        invariant i <= j <= |tokens| - 1
        invariant text == Dotted(tokens, i, j)
      {
        text := text + tokens[j] + ".";
        j := j + 1;
      }
      text := text + tokens[|tokens| - 1];
      DottedJoin(tokens, i);
    }

    /**
     * `generateCAllID`: (hash(name) + 2) XOR (32 * hash(name without its first
     * character)) in wrapping `int` arithmetic, widened to `long`; the empty name
     * makes `substring(1)` throw.
     */
    static function GenerateCallId(callName: string): (id: int)
      requires |callName| >= 1
      ensures IsInt(id)
    {
      Xor(Wrap(HashCode(callName) + 2), Wrap(32 * HashCode(callName[1..])))
    }

    /** The first method of `methods` whose text ends with the request (the search loop of delegateCall). */
    static method LocateMethod(methods: seq<JMethod>, request: Option<string>) returns (r: Result<Option<JMethod>, Throwable>)
      ensures request.None? ==> r == (if methods == [] then Success(None) else Failure(NullPointer))
      ensures request.Some? ==> r == Success(FirstEndingWith(methods, request.value))
    {
      var i := 0;
      while i < |methods|
        invariant 0 <= i <= |methods|
        invariant request.None? ==> i == 0
        invariant request.Some? ==> forall j :: 0 <= j < i ==> !EndsWith(methods[j].text, request.value)
      {
        if request.None? {
          return Failure(NullPointer);
        }
        if EndsWith(methods[i].text, request.value) {
          return Success(Some(methods[i]));
        }
        i := i + 1;
      }
      return Success(None);
    }

    /**
     * The private `exportObject(cInterface, obj, instanceId)`: refuses an object
     * that does not implement the interface, otherwise maps
     * RemoteInstance(instanceId, interface name) to it, replacing an equal key.
     */
    method ExportObject(cInterface: string, obj: Value, instanceId: int, rt: Runtime) returns (failure: Option<Throwable>)
      modifies this
      ensures obj == Null ==> failure == Some(NullPointer) && exportedObjects == old(exportedObjects)
      ensures obj != Null && !rt.isAssignable(cInterface, obj) ==>
        failure == Some(NotAssignable(cInterface)) && exportedObjects == old(exportedObjects)
      ensures obj != Null && rt.isAssignable(cInterface, obj) ==>
        failure == None && exportedObjects == old(exportedObjects)[RemoteInstance(instanceId, cInterface) := obj]
      ensures old(Valid()) ==> Valid()
    {
      if obj == Null {
        return Some(NullPointer);
      }
      if !rt.isAssignable(cInterface, obj) {
        return Some(NotAssignable(cInterface));
      }
      exportedObjects := exportedObjects[RemoteInstance(instanceId, cInterface) := obj];
      failure := None;
    }

    /** The public `exportObject(cInterface, obj)`; `randomId` is the UUID's most significant bits. */
    method Export(cInterface: string, obj: Value, randomId: int, rt: Runtime) returns (failure: Option<Throwable>)
      modifies this
      ensures failure == (if obj == Null then Some(NullPointer)
                          else if !rt.isAssignable(cInterface, obj) then Some(NotAssignable(cInterface)) else None)
      ensures failure.None? ==> exportedObjects == old(exportedObjects)[RemoteInstance(randomId, cInterface) := obj]
      ensures failure.Some? ==> exportedObjects == old(exportedObjects)
      ensures old(Valid()) ==> Valid()
    {
      failure := ExportObject(cInterface, obj, randomId, rt);
    }

    /** `registerGlobal(cInterface, obj)`: export under instance id 0. */
    method RegisterGlobal(cInterface: string, obj: Value, rt: Runtime) returns (failure: Option<Throwable>)
      modifies this
      ensures failure == (if obj == Null then Some(NullPointer)
                          else if !rt.isAssignable(cInterface, obj) then Some(NotAssignable(cInterface)) else None)
      ensures failure.None? ==> exportedObjects == old(exportedObjects)[RemoteInstance(0, cInterface) := obj]
      ensures failure.Some? ==> exportedObjects == old(exportedObjects)
      ensures old(Valid()) ==> Valid()
    {
      failure := ExportObject(cInterface, obj, 0, rt);
    }

    /** `getRemoteReference(obj)`: a key whose object is `obj`, null exactly when no entry holds `obj`. */
    method GetRemoteReference(obj: Value) returns (r: Option<RemoteInstance>)
      ensures r.Some? ==> r.value in exportedObjects && exportedObjects[r.value] == obj
      ensures r.None? <==> obj !in exportedObjects.Values
    {
      var keys := exportedObjects.Keys;
      while keys != {}
        invariant keys <= exportedObjects.Keys
        invariant forall k :: k in exportedObjects && k !in keys ==> exportedObjects[k] != obj
        decreases keys
      {
        var k :| k in keys;
        if exportedObjects[k] == obj {
          return Some(k);
        }
        keys := keys - {k};
      }
      return None;
    }

    /** The invocation part of delegateCall, from `invoke` to the finished RemoteReturn. */
    method InvokeAndWrap(m: JMethod, impl: Value, args: seq<Value>, callId: int, rt: Runtime, freshId: int)
      returns (ret: RemoteReturn)
      modifies this
      ensures InvocationReturn(old(exportedObjects), exportedObjects, ret, m, impl, args, callId, rt, freshId)
      ensures old(Valid()) ==> Valid()
    {
      var outcome := rt.invoke(m, impl, args);
      if outcome.Threw? {
        return RemoteReturn(true, outcome.exception, callId);
      }
      var methodReturn := outcome.value;
      if m.returnInterface.Some? && methodReturn != Null {
        var failure := Export(m.returnInterface.value, methodReturn, freshId, rt);
        if failure.Some? {
          return RemoteReturn(true, Exc(failure.value), callId);
        }
      }
      if methodReturn != Null && methodReturn in exportedObjects.Values {
        var ref := GetRemoteReference(methodReturn);
        methodReturn := Handle(ref.value);
      }
      ret := RemoteReturn(false, methodReturn, callId);
    }

    /**
     * `delegateCall`: find the exported target, record the class name and the
     * signature in the receiving connection's cache, resolve the method (cache
     * first, then the declared and public methods), and invoke it. A missing
     * target throws; a missing method gives a NoSuchMethodException fault.
     */
    method DelegateCall(call: RemoteCall, cache: Cache, rt: Runtime, freshId: int) returns (r: Result<RemoteReturn, Throwable>)
      modifies this, cache
      ensures call.remoteInstance !in old(exportedObjects) ==>
        r == Failure(NoImplementation(call.remoteInstance.className))
        && exportedObjects == old(exportedObjects) && unchanged(cache)
      ensures call.remoteInstance in old(exportedObjects) ==>
        var impl := old(exportedObjects[call.remoteInstance]);
        var cls := call.remoteInstance.className;
        var h := call.methodIdHash;
        var request := if call.methodId.Some? then call.methodId else old(cache.MethodName(cls, h));
        var resolved := Resolve(old(cache.MethodOf(cls, h)), request, rt.declaredMethods(impl) + rt.publicMethods(impl));
        && cache.ClassName(call.remoteInstance.instanceId) == Some(cls)
        && cache.MethodName(cls, h) == request
        && cache.MethodOf(cls, h) == (if resolved.Success? && resolved.value.Some? then resolved.value else old(cache.MethodOf(cls, h)))
        && (resolved.Failure? ==> r == Failure(resolved.error) && exportedObjects == old(exportedObjects))
        && (resolved == Success(None) ==>
              r == Success(RemoteReturn(true, Exc(NoSuchMethod(request)), call.callId))
              && exportedObjects == old(exportedObjects))
        && (resolved.Success? && resolved.value.Some? ==>
              r.Success? && InvocationReturn(old(exportedObjects), exportedObjects, r.value, resolved.value.value,
                                             impl, ArgValues(call.args), call.callId, rt, freshId))
      ensures forall id :: id != call.remoteInstance.instanceId ==> cache.ClassName(id) == old(cache.ClassName(id))
      ensures forall c, h :: c != call.remoteInstance.className || h != call.methodIdHash ==>
        cache.MethodName(c, h) == old(cache.MethodName(c, h)) && cache.MethodOf(c, h) == old(cache.MethodOf(c, h))
      ensures old(Valid()) ==> Valid()
    {
      if call.remoteInstance !in exportedObjects {
        return Failure(NoImplementation(call.remoteInstance.className));
      }
      var implementator := exportedObjects[call.remoteInstance];
      var methods := rt.declaredMethods(implementator) + rt.publicMethods(implementator);
      var request, resolved := LookupMethod(call, cache, methods);
      if resolved.Failure? {
        return Failure(resolved.error);
      }
      if resolved.value.None? {
        return Success(RemoteReturn(true, Exc(NoSuchMethod(request)), call.callId));
      }
      var ret := InvokeAndWrap(resolved.value.value, implementator, ArgValues(call.args), call.callId, rt, freshId);
      return Success(ret);
    }

    /**
     * The cache part of delegateCall: record the class name under the instance
     * id and the signature under (class, hash) — or look the signature up when
     * the call omits it — then take the cached method or search `methods`,
     * caching what the search finds.
     */
    static method LookupMethod(call: RemoteCall, cache: Cache, methods: seq<JMethod>)
      returns (request: Option<string>, resolved: Result<Option<JMethod>, Throwable>)
      modifies cache
      ensures var cls := call.remoteInstance.className;
        var h := call.methodIdHash;
        && request == (if call.methodId.Some? then call.methodId else old(cache.MethodName(cls, h)))
        && resolved == Resolve(old(cache.MethodOf(cls, h)), request, methods)
        && cache.ClassName(call.remoteInstance.instanceId) == Some(cls)
        && cache.MethodName(cls, h) == request
        && cache.MethodOf(cls, h) == (if resolved.Success? && resolved.value.Some? then resolved.value else old(cache.MethodOf(cls, h)))
      ensures forall id :: id != call.remoteInstance.instanceId ==> cache.ClassName(id) == old(cache.ClassName(id))
      ensures forall c, h :: c != call.remoteInstance.className || h != call.methodIdHash ==>
        cache.MethodName(c, h) == old(cache.MethodName(c, h)) && cache.MethodOf(c, h) == old(cache.MethodOf(c, h))
    {
      var instance := call.remoteInstance;
      var methodID := call.methodIdHash;
      var className := cache.GetClassID(Some(instance.className), instance.instanceId);
      var cls := className.value;
      request := cache.GetMethodID(cls, call.methodId, methodID);
      var cached := cache.GetMethod(cls, None, methodID);
      if cached.Some? {
        return request, Success(cached);
      }
      resolved := LocateMethod(methods, request);
      if resolved.Success? {
        var _ := cache.GetMethod(cls, resolved.value, methodID);
      }
    }
}
}
