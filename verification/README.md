# RipeRMI core, modelled in Dafny

RipeRMI lets a Java program call methods of an interface on objects that live
in another process. This project models the core of that runtime:

- the **remote-object handle** `RemoteInstance` (an instance id plus an
  interface name). It is compared by id and name, but hashed by name only.
- the **call message** `RemoteCall`.
- the per-connection **identifier cache**. It records class names by instance
  id. For each class it also records short method signatures and resolved
  methods by method-id hash. Every accessor stores a non-null value and looks
  up otherwise.
- the **call delegator** `CallHandler`:
  - the export registry;
  - the reverse lookup of an exported object by identity;
  - `generateCallName`, which turns a method's text into a short call name;
  - `generateCAllID`, which hashes that name in 32-bit `int` arithmetic;
  - `delegateCall`: method resolution through the cache, then through the
    implementation's declared and public methods, then invocation with
    auto-export of interface-typed results.
- the **connection engine** `ConnectionHandler`, as a class whose methods run
  one step at a time:
  - the handshake beacons;
  - the reader loop's handling of each message (Call, Return, Beacon, other);
  - the delegator worker;
  - the memoized proxy table;
  - the whole outbound `remoteInvocation`: call id, target instance, return
    queue, argument export and substitution, signature-or-hash decision, send,
    wait on the queue, queue removal, and the caller's outcome.

Modules:
- `Wrappers`: `Option` and `Result`.
- `JavaString`: Java's `String.hashCode`, `split("\\.")`, `endsWith`, `int`
  wrap-around and `^`.
- `Messages`.
- `Reflection`: the reflective facts the delegator relies on, given as a table
  of functions.
- `IdentifierCache`.
- `CallHandling`.
- `Connection`.

The following become parameters:
- the identifiers drawn from `UUID.randomUUID()`;
- the messages the reader reads;
- the set of interface names `Class.forName` can load.

Java `null` is `None` or `Null`. Thrown exceptions are `Failure` values of the
`Throwable` datatype.

A call to an object that is not exported gets no Return: `delegateCall` throws
(`CallHandler.java:113-114`) and the delegator worker swallows the exception
(`ConnectionHandler.java:339-347`). `DelegateCall` fails with
`NoImplementation` and `ServeCall` then sends nothing.

On a reader failure, the wake-up at `ConnectionHandler.java:302-312` casts a
plain `Object` to `RemoteReturn`; the cast throws, so no queue receives
anything. The reader's failure path in the model delivers nothing.

## Model

| member | source | states |
|---|---|---|
| JavaString.Wrap | RipeRMI/src/net/sf/lipermi/handler/CallHandler.java:90 | the result is a Java `int`, congruent to the input modulo 2^32, and equal to it when it already fits |
| JavaString.HashCode | RipeRMI/src/net/sf/lipermi/call/RemoteInstance.java:81-84 | `String.hashCode` always yields a value in Java's `int` range |
| JavaString.Pieces | RipeRMI/src/net/sf/lipermi/handler/CallHandler.java:67 | at least one piece, no piece contains a dot, and a string without dots is its own only piece |
| JavaString.PiecesJoin | RipeRMI/src/net/sf/lipermi/handler/CallHandler.java:67 | splitting at every dot loses nothing: rejoining the pieces with dots gives back the string |
| JavaString.DropTrailingEmpty | RipeRMI/src/net/sf/lipermi/handler/CallHandler.java:67 | the result is a prefix of the list, does not end with an empty string, and only empty strings were dropped |
| JavaString.SplitDots | RipeRMI/src/net/sf/lipermi/handler/CallHandler.java:67 | no token of `split("\\.")` contains a dot |
| Messages.RemoteInstance.Equals | RipeRMI/src/net/sf/lipermi/call/RemoteInstance.java:56-65 | `equals(obj)` holds exactly when `obj` is a RemoteInstance with the same id and class name |
| Messages.RemoteInstance.HashCode | RipeRMI/src/net/sf/lipermi/call/RemoteInstance.java:81-84 | the hash is a Java `int` |
| Messages.Proxy.constructor | RipeRMI/src/net/sf/lipermi/handler/CallProxy.java:55-60 | a built proxy implements the instance's interface |
| Messages.EqualsIsEquivalence | RipeRMI/src/net/sf/lipermi/call/RemoteInstance.java:56-65 | `equals` is reflexive, symmetric and transitive |
| Messages.EqualsOnlyInstances | RipeRMI/src/net/sf/lipermi/call/RemoteInstance.java:58-64 | `equals` is false for anything that is not a RemoteInstance |
| Messages.EqualsAgreesWithHashCode | RipeRMI/src/net/sf/lipermi/call/RemoteInstance.java:56-84 | equal instances hash alike, and so do instances that differ only in their id, which makes the hash table keyed by instances consistent |
| Messages.RemoteInstanceGetters | RipeRMI/src/net/sf/lipermi/call/RemoteInstance.java:51-79 | the getters return what the constructor was given |
| Messages.RemoteCallGetters | RipeRMI/src/net/sf/lipermi/call/RemoteCall.java:61-103 | the getters return what the constructor was given, including a null method id |
| IdentifierCache.Cache.constructor | RipeRMI/src/net/sf/lipermi/handler/Cache.java:58-67 | a new cache has no classes and no class names |
| IdentifierCache.Cache.ClassEntry | RipeRMI/src/net/sf/lipermi/handler/Cache.java:60-64 | reading a class's tables yields the stored ones, or creates empty tables for a class seen for the first time; class names are untouched |
| IdentifierCache.Cache.HasClassID | RipeRMI/src/net/sf/lipermi/handler/Cache.java:75-77 | true exactly when a class name is stored under the id |
| IdentifierCache.Cache.GetClassID | RipeRMI/src/net/sf/lipermi/handler/Cache.java:85-92 | a non-null name is stored and returned; null returns what is stored; no other id changes; the per-class tables are untouched |
| IdentifierCache.Cache.HasMethodID | RipeRMI/src/net/sf/lipermi/handler/Cache.java:102-104 | true exactly when a signature is stored for (class, hash), whatever `methodName` is; only the class's empty tables may be added |
| IdentifierCache.Cache.GetMethodID | RipeRMI/src/net/sf/lipermi/handler/Cache.java:114-121 | a non-null signature is stored under (class, hash) and returned; null returns what is stored; every other pair and every method entry is unchanged |
| IdentifierCache.Cache.GetMethod | RipeRMI/src/net/sf/lipermi/handler/Cache.java:131-138 | a non-null method is stored under (class, hash) and returned; null returns what is stored; every other pair and every signature is unchanged |
| CallHandling.CallHandler.constructor | RipeRMI/src/net/sf/lipermi/handler/CallHandler.java:53 | a new handler exports nothing, and its table holds no null entry |
| CallHandling.CallHandler.GenerateCallName | RipeRMI/src/net/sf/lipermi/handler/CallHandler.java:62-81 | the loop builds exactly `CallName`: for each token holding '(', that token and all later ones, rejoined with dots |
| CallHandling.CallHandler.RejoinFrom | RipeRMI/src/net/sf/lipermi/handler/CallHandler.java:72-77 | the inner loop appends tokens[i..] rejoined with dots |
| CallHandling.DottedJoin | RipeRMI/src/net/sf/lipermi/handler/CallHandler.java:72-77 | the inner loop's appends followed by the last token equal the tokens from `i` joined with dots |
| CallHandling.CallNameOfSingleParen | RipeRMI/src/net/sf/lipermi/handler/CallHandler.java:62-81 | when exactly one token holds '(' (the usual `name(args)` text), the call name is that token and all later ones, rejoined with dots |
| CallHandling.CallNameWithoutParen | RipeRMI/src/net/sf/lipermi/handler/CallHandler.java:62-81 | a text without '(' has the empty call name |
| CallHandling.TokensWithin | RipeRMI/src/net/sf/lipermi/handler/CallHandler.java:67 | every character of a token occurs in the split string |
| CallHandling.CallHandler.GenerateCallId | RipeRMI/src/net/sf/lipermi/handler/CallHandler.java:89-91 | the id is a 32-bit value (an `int` widened to `long`); the empty name is excluded because `substring(1)` throws there |
| CallHandling.FirstMatchIndex | RipeRMI/src/net/sf/lipermi/handler/CallHandler.java:133-147 | the index of the first method whose text ends with the request: no earlier one does, and the one found does |
| CallHandling.CallHandler.LocateMethod | RipeRMI/src/net/sf/lipermi/handler/CallHandler.java:131-147 | the search returns the first method whose text ends with the request, or null; with a null request and any method to compare, `endsWith(null)` throws NullPointerException |
| CallHandling.CallHandler.ExportObject | RipeRMI/src/net/sf/lipermi/handler/CallHandler.java:224-232 | an object not assignable to the interface (or null) is refused and nothing changes; otherwise the table maps (id, interface name) to it, replacing an equal key; the table never gains a null entry |
| CallHandling.CallHandler.Export | RipeRMI/src/net/sf/lipermi/handler/CallHandler.java:198-202 | export under the random id, with the same refusal cases; the table never gains a null entry |
| CallHandling.CallHandler.RegisterGlobal | RipeRMI/src/net/sf/lipermi/handler/CallHandler.java:212-215 | export under instance id 0, with the same refusal cases; the table never gains a null entry |
| CallHandling.CallHandler.GetRemoteReference | RipeRMI/src/net/sf/lipermi/handler/CallHandler.java:240-246 | the result is a key holding exactly this object, and null exactly when no entry holds it |
| CallHandling.CallHandler.InvokeAndWrap | RipeRMI/src/net/sf/lipermi/handler/CallHandler.java:166-190 | (`InvocationReturn`) a thrown exception becomes a fault; a non-null interface-typed result is exported first, and a refusal becomes a fault; a result held by the table travels as a key holding it; anything else travels as is; the table never gains a null entry |
| CallHandling.CallHandler.LookupMethod | RipeRMI/src/net/sf/lipermi/handler/CallHandler.java:116-156 | the class name is recorded under the instance id; the request is the call's signature (recorded) or the cached one; the method is the cached one or the first match, and a match is cached; all other cache entries are unchanged |
| CallHandling.CallHandler.DelegateCall | RipeRMI/src/net/sf/lipermi/handler/CallHandler.java:104-191 | a call to an unexported instance throws "doesn't have implementation" and changes nothing; otherwise the cache effects of the lookup; a NullPointerException escapes; no method gives a NoSuchMethod fault; a found method gives the invocation's Return; the table never gains a null entry |
| Connection.CallCounter.constructor | RipeRMI/src/net/sf/lipermi/handler/ConnectionHandler.java:73 | call ids start at 0 |
| Connection.CallCounter.GetAndIncrement | RipeRMI/src/net/sf/lipermi/handler/ConnectionHandler.java:428 | returns the current id and advances the counter by one |
| Connection.ReturnQueue.constructor | RipeRMI/src/net/sf/lipermi/handler/ConnectionHandler.java:439 | a new return queue is empty |
| Connection.Without | RipeRMI/src/net/sf/lipermi/handler/ConnectionHandler.java:518 | `List.remove` shortens the list by one when the queue is present, and leaves it as is otherwise |
| Connection.WithoutAppended | RipeRMI/src/net/sf/lipermi/handler/ConnectionHandler.java:442-519 | removing the queue a call appended restores the list the call found |
| Connection.WithoutDistinct | RipeRMI/src/net/sf/lipermi/handler/ConnectionHandler.java:516-519 | removal keeps the queues distinct and drops exactly the removed queue |
| Connection.FirstOther | RipeRMI/src/net/sf/lipermi/handler/ConnectionHandler.java:222-288 | the position of the first message the reader cannot handle: all earlier messages are Calls, Returns or Beacons |
| Connection.FirstWithId | RipeRMI/src/net/sf/lipermi/handler/ConnectionHandler.java:496-513 | the position of the first Return answering the call id: no earlier one does |
| Connection.ExportDone | RipeRMI/src/net/sf/lipermi/handler/ConnectionHandler.java:448-460 | a finished export pass refused nothing, holds every exported argument, and left unchanged every key that no non-null interface-typed argument was exported under |
| Connection.ExportedTravelAsHandles | RipeRMI/src/net/sf/lipermi/handler/ConnectionHandler.java:447-469 | after both argument passes, every exported argument whose key no later exported argument reuses travels as a handle to the object it stands for |
| Connection.ConnectionHandler.constructor | RipeRMI/src/net/sf/lipermi/handler/ConnectionHandler.java:151-178 | a new connection has written beacons 0, 1 and 2 and nothing else, knows no proxies, has no waiters, and has an empty cache |
| Connection.ConnectionHandler.SendMessage | RipeRMI/src/net/sf/lipermi/handler/ConnectionHandler.java:395-412 | the message is appended to what was written |
| Connection.ConnectionHandler.GetProxyFromRemoteInstance | RipeRMI/src/net/sf/lipermi/handler/ConnectionHandler.java:361-372 | a known instance yields its memoized proxy and nothing changes; a new one gets a fresh proxy of its interface, or null when the interface cannot be loaded, and that answer is remembered |
| Connection.ConnectionHandler.GetRemoteInstanceFromProxy | RipeRMI/src/net/sf/lipermi/handler/ConnectionHandler.java:380-387 | the result is an instance whose proxy is this very proxy, and null exactly when there is none |
| Connection.ConnectionHandler.ProxyArguments | RipeRMI/src/net/sf/lipermi/handler/ConnectionHandler.java:240-251 | every RemoteInstance argument is replaced by its proxy (or null) as the proxy map finally holds it; other arguments are untouched; known proxies are kept |
| Connection.ConnectionHandler.Broadcast | RipeRMI/src/net/sf/lipermi/handler/ConnectionHandler.java:260-279 | the Return is appended to every waiting queue |
| Connection.ConnectionHandler.HandleMessage | RipeRMI/src/net/sf/lipermi/handler/ConnectionHandler.java:232-287 | a Call has every handle among its arguments replaced by the proxy the map holds for it and is dispatched; a Return reaches every queue; a Beacon is skipped; anything else is "Unknown IRemoteMessage type" |
| Connection.ConnectionHandler.Run | RipeRMI/src/net/sf/lipermi/handler/ConnectionHandler.java:204-321 | the reader dispatches exactly the Calls before the first unknown message, fails there if there is one, every waiting queue receives exactly the Returns read, in order; the argument arrays of the dispatched Calls have each handle replaced by its proxy, every other array is unchanged, and no known proxy is lost |
| Connection.ConnectionHandler.ServeCall | RipeRMI/src/net/sf/lipermi/handler/ConnectionHandler.java:324-349 | the delegator worker sends exactly the Return delegation produced: nothing (with the export table and cache unchanged) for an unexported instance; otherwise the class name is cached under the instance id, the request is the call's signature (cached) or the cached one, a found method is cached, no other cache entry changes; a NullPointerException in the search sends nothing and leaves the table unchanged; no matching method sends the NoSuchMethod fault, with the table unchanged; otherwise the invocation's Return for the call's id; the table never gains a null entry |
| Connection.ConnectionHandler.ExportArguments | RipeRMI/src/net/sf/lipermi/handler/ConnectionHandler.java:448-460 | the export pass fails exactly when some non-null interface-typed argument is not assignable, and then with the refusal naming the first such argument's type, the earlier arguments staying exported; otherwise every such argument is exported under its random id; a key that no non-null interface-typed argument is exported under never changes, so null and plain arguments leave the table alone; the table never gains a null entry |
| Connection.ConnectionHandler.ReferenceArguments | RipeRMI/src/net/sf/lipermi/handler/ConnectionHandler.java:462-468 | every argument held by the export table is replaced by a key holding it; the rest are untouched |
| Connection.ConnectionHandler.PrepareCall | RipeRMI/src/net/sf/lipermi/handler/ConnectionHandler.java:471-484 | a text of fewer than 15 characters, or one whose call name is empty, throws; otherwise the call carries the hash, and carries the short name only when the cache did not know it yet, which is then recorded |
| Connection.ConnectionHandler.BeginCall | RipeRMI/src/net/sf/lipermi/handler/ConnectionHandler.java:424-488 | the call id is drawn, a fresh empty queue is registered (and stays registered on failure), the call goes to the proxy's instance (instance 0 of its interface otherwise), and the call is written exactly when no argument export is refused and the method text yields a call name; on success the short name travels and is recorded exactly when the cache did not know (target class, hash), and every other method name is kept; cached methods and class names never change; a refusal names the first refusing argument and leaves the array and cache as they were; a bad text gives IndexOutOfBounds after both passes; a key that no non-null interface-typed argument is exported under never changes; the table never gains a null entry |
| Connection.ConnectionHandler.OpenCall | RipeRMI/src/net/sf/lipermi/handler/ConnectionHandler.java:427-444 | a fresh call id, the target instance, and a fresh empty queue appended to the waiters |
| Connection.ConnectionHandler.SendCall | RipeRMI/src/net/sf/lipermi/handler/ConnectionHandler.java:447-488 | fails without writing exactly on a refused export or a bad method text; a refusal names the first refusing argument, leaves the array and cache as they were; a bad text gives IndexOutOfBounds after both passes, with the arguments exported and replaced and the method tables unchanged; otherwise writes the prepared call with its arguments replaced, and the cache records the short name under (target class, hash) when it was unknown and keeps every other method name; cached methods and class names never change; a key that no non-null interface-typed argument is exported under never changes; the table never gains a null entry |
| Connection.ConnectionHandler.TargetOf | RipeRMI/src/net/sf/lipermi/handler/ConnectionHandler.java:430-436 | the instance behind one of our proxies, or instance 0 of the proxy's interface |
| Connection.ConnectionHandler.Register | RipeRMI/src/net/sf/lipermi/handler/ConnectionHandler.java:439-444 | a new empty queue is added to the end of the waiters and the waiters stay distinct |
| Connection.ConnectionHandler.PassArguments | RipeRMI/src/net/sf/lipermi/handler/ConnectionHandler.java:447-469 | a null argument array skips both passes and leaves the table as it was; otherwise the export pass, then the reference pass; a refusal names the first refusing argument and leaves the array as it was, the earlier arguments staying exported; a key that no non-null interface-typed argument is exported under never changes; the table never gains a null entry |
| Connection.ConnectionHandler.AwaitReturn | RipeRMI/src/net/sf/lipermi/handler/ConnectionHandler.java:496-513 | the waiter takes Returns up to and including the first one for its call id and returns it, dropping Returns for other calls; null when none is there |
| Connection.ConnectionHandler.EndCall | RipeRMI/src/net/sf/lipermi/handler/ConnectionHandler.java:516-550 | the queue is removed; no Return gives "Connection aborted"; a fault carrying a throwable rethrows it; a RemoteInstance gives its memoized or new proxy, or ClassNotFound; anything else is returned as is |
| Connection.ConnectionHandler.RemoteInvocation | RipeRMI/src/net/sf/lipermi/handler/ConnectionHandler.java:424-551 | a refused export or a bad method text fails, writes nothing and leaks the queue; otherwise the waiter list ends as it began, every other waiter also receives the Returns read, and the outcome is decided by the first Return carrying the call's id |
| Connection.ConnectionHandler.CompleteCall | RipeRMI/src/net/sf/lipermi/handler/ConnectionHandler.java:491-551 | with the reader in between, the caller's queue is removed again and its outcome follows from the first Return for its id; a RemoteInstance answer gives ClassNotFound when its interface cannot be loaded, and otherwise the proxy the map then holds for it, the one it already held if it was known; no known proxy is lost |
| Connection.ConnectionHandler.ReadAndAwait | RipeRMI/src/net/sf/lipermi/handler/ConnectionHandler.java:491-513 | the caller gets the first Return for its id among those read, and every other waiter receives all of them; the dispatched Calls' argument arrays have their handles replaced by proxies, and no known proxy is lost |
| Connection.ConnectionHandler.ReadMessage | RipeRMI/src/net/sf/lipermi/handler/ConnectionHandler.java:222-288 | one pass of the reader loop: the message is handled as `HandleMessage` states, every waiting queue ends with the Returns read so far, the dispatched arrays so far are rewritten, and no known proxy is lost |
| Connection.ConnectionHandler.RewriteMessage | RipeRMI/src/net/sf/lipermi/handler/ConnectionHandler.java:232-251 | handling one message extends the rewriting of argument arrays from the messages before it to that message too |
| Connection.ArgsProxiedStep | RipeRMI/src/net/sf/lipermi/handler/ConnectionHandler.java:240-251 | rewriting the next Call's arguments, with the proxy map only growing, keeps the earlier arrays rewritten; a message that is not a Call changes no array |
| Connection.ProxiedAgain | RipeRMI/src/net/sf/lipermi/handler/ConnectionHandler.java:240-251 | replacing handles by proxies a second time changes nothing: an array rewritten once is rewritten for good |
| Connection.ExportStopped | RipeRMI/src/net/sf/lipermi/handler/ConnectionHandler.java:448-460 | an export pass stopped at a refusing argument names that argument's type, keeps the earlier exported arguments in the table and leaves unchanged every key none of them was exported under |

## Left out

- Sockets, object streams, serialization and the protocol filter are left out. The filter is the identity function. A message is a value of the `Message` datatype, and writing one appends it to `sent`.
- Threads, the thread pool, the locks and blocking are left out. The reader loop, the delegator workers and the callers run one after another. `RemoteInvocation` lets the reader process every message it will read before the caller waits; other interleavings are not modelled.
- `socket.isConnected()`, the half-second sleep and the retry after `StreamCorruptedException` are left out. The reader stops at the first message it cannot handle, or when the messages end.
- Connection listeners, `printStackTrace` and `setAccessible` are left out.
- Removing the names of the implementation class and its superclasses from `Method.toString()` is left out. `JMethod.text` is that text after the removal.
- Java reflection is not modelled. `isAssignableFrom`, `getDeclaredMethods`, `getMethods` and `Method.invoke` are the functions of a `Runtime` value. An exception thrown by the invoked method is given directly, not wrapped in `InvocationTargetException`.
- The `long` call-id counter is unbounded; overflow after 2^63 calls is not modelled.
- `String.hashCode` counts each character as one UTF-16 unit. Characters outside the Basic Multilingual Plane are not modelled.
- RemoteReturn.java and RemoteBeacon.java are not part of this model. Their fields are modelled as they are used: a Return's fault flag, value and call id, and a Beacon's id.
- The `handler` field a received call gets is not modelled. Delegation is given the receiving connection's cache directly.
- `containsValue` compares with `equals`, while `getRemoteReference` compares with `==`. The model compares values with `==` in both places.
- Connection.ConnectionHandler.AwaitReturn: when the queue holds no Return for the call, the model ends the wait with null, which gives "Connection aborted". In the source, `take` blocks until a Return arrives.
- Connection.ConnectionHandler.RemoteInvocation: the call as written (its id, the method-id decision and the target), the exports and replaced arguments, the cache update and the proxy-map growth are not carried up to this contract; `BeginCall` and `CompleteCall` state them. For a Return carrying a RemoteInstance, the outcome (a proxy or ClassNotFound) is stated by `CompleteCall` and `EndCall`, not here.
- Connection.ConnectionHandler.Run: does not state which RemoteInstance read gave rise to each new proxy-map entry, nor that new proxies are fresh objects; `GetProxyFromRemoteInstance` states both for one instance.
- Connection.ConnectionHandler.CompleteCall: does not restate the rewriting of the dispatched Calls' arguments; `ReadAndAwait` and `Run` state it.
- CallHandling.CallHandler.GenerateCallId: the contract states only the range of the id. The value itself is `(hash(name) + 2) ^ (32 * hash(name without its first character))` in `int` arithmetic.
