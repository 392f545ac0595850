/**
 * The connection engine, as sequential steps: the beacon handshake, the
 * reader's per-message dispatch, the proxy table for instances learned from the
 * peer, and the bookkeeping of an outbound call (id, return queue, argument
 * substitution, signature-or-hash decision, filtering of returns, outcome).
 */
module Connection {
  import opened Wrappers
  import opened Messages
  import opened Reflection
  import opened IdentifierCache
  import opened CallHandling

  /** The process-wide call-id counter (a static AtomicLong): every connection draws from it. */
  class CallCounter {
    var next: int

    constructor ()
      ensures next == 0
    {
      next := 0;
    }

    /** `getAndIncrement()`. */
    method GetAndIncrement() returns (id: int)
      modifies this
      ensures id == old(next) && next == old(next) + 1
    {
      id := next;
      next := next + 1;
    }
  }

  /** A caller's unbounded return queue: `offer` appends, `take` removes from the front. */
  class ReturnQueue {
    var items: seq<RemoteReturn>

    constructor ()
      ensures items == []
    {
      items := [];
    }
  }

  /** A parameter of an outbound method: its type name and whether that type is an interface. */
  datatype Param = Param(typeName: string, isInterface: bool)

  /** An outbound method: its `Method.toString()` text and its parameters. */
  datatype OutMethod = OutMethod(text: string, params: seq<Param>)

  /** What the reader loop does with one message. */
  datatype Step = Dispatch(call: RemoteCall) | Delivered | Skipped | Fail(error: Throwable)

  /** An outbound call in flight: its call id, the queue its caller waits on, and the call as sent. */
  datatype Pending = Pending(id: int, queue: ReturnQueue, call: RemoteCall)

  /** The value an optional proxy stands for: the proxy, or null. */
  function ProxyValue(p: Option<Proxy>): Value {
    if p.Some? then Stub(p.value) else Null
  }

  /** `List.remove(q)`: the list without the first occurrence of `q`. */
  function Without(qs: seq<ReturnQueue>, q: ReturnQueue): (r: seq<ReturnQueue>)
    ensures q in qs ==> |r| == |qs| - 1
    ensures q !in qs ==> r == qs
  {
    if qs == [] then []
    else if qs[0] == q then qs[1..]
    else [qs[0]] + Without(qs[1..], q)
  }

  /** Removing the queue a call appended restores the list it found. */
  lemma {:induction false} WithoutAppended(qs: seq<ReturnQueue>, q: ReturnQueue)
    requires q !in qs
    ensures Without(qs + [q], q) == qs
  {
    if qs != [] {
      assert (qs + [q])[1..] == qs[1..] + [q];
      WithoutAppended(qs[1..], q);
    }
  }

  lemma AppendAssoc(a: seq<RemoteReturn>, b: seq<RemoteReturn>, c: seq<RemoteReturn>)
    ensures a + b + c == a + (b + c)
  {
  }

  /** The index of the first message the reader cannot handle, or |ms|. */
  function FirstOther(ms: seq<Message>): (k: nat)
    ensures k <= |ms|
    ensures forall j :: 0 <= j < k ==> !ms[j].OtherMsg?
    ensures k < |ms| ==> ms[k].OtherMsg?
  {
    if ms == [] then 0
    else if ms[0].OtherMsg? then 0
    else 1 + FirstOther(ms[1..])
  }

  /** The Returns among `ms`, in order. */
  function ReturnsOf(ms: seq<Message>): seq<RemoteReturn> {
    if ms == [] then []
    else ReturnsOf(ms[..|ms| - 1]) + (if ms[|ms| - 1].ReturnMsg? then [ms[|ms| - 1].result] else [])
  }

  /** The Calls among `ms`, in order. */
  function CallsOf(ms: seq<Message>): seq<RemoteCall> {
    if ms == [] then []
    else CallsOf(ms[..|ms| - 1]) + (if ms[|ms| - 1].CallMsg? then [ms[|ms| - 1].call] else [])
  }

  /** The argument array of a message, when it is a Call with arguments. */
  function ArgsOf(m: Message): set<array<Value>> {
    if m.CallMsg? && m.call.args != null then {m.call.args} else {}
  }

  /** The argument arrays of the Calls among `ms`. */
  function ArgArrays(ms: seq<Message>): set<array<Value>> {
    if ms == [] then {} else ArgArrays(ms[..|ms| - 1]) + ArgsOf(ms[|ms| - 1])
  }

  /** Reading message `i` extends the Calls and Returns read so far by that message's own. */
  lemma MessagesStep(ms: seq<Message>, i: nat)
    requires i < |ms|
    ensures CallsOf(ms[..i + 1]) == CallsOf(ms[..i]) + (if ms[i].CallMsg? then [ms[i].call] else [])
    ensures ReturnsOf(ms[..i + 1]) == ReturnsOf(ms[..i]) + (if ms[i].ReturnMsg? then [ms[i].result] else [])
  {
    assert ms[..i + 1][..i] == ms[..i];
  }

  /** The argument arrays of a prefix are among those of all messages. */
  lemma {:induction false} ArgArraysPrefix(ms: seq<Message>, k: nat)
    requires k <= |ms|
    ensures ArgArrays(ms[..k]) <= ArgArrays(ms)
  {
    if k < |ms| {
      var init := ms[..|ms| - 1];
      assert init[..k] == ms[..k];
      ArgArraysPrefix(init, k);
    } else {
      assert ms[..k] == ms;
    }
  }

  /** The argument arrays of the first `i + 1` messages are those of the first `i` and that of message `i`. */
  lemma ArgArraysStep(ms: seq<Message>, i: nat)
    requires i < |ms|
    ensures ArgArrays(ms[..i + 1]) == ArgArrays(ms[..i]) + ArgsOf(ms[i])
    ensures ArgsOf(ms[i]) <= ArgArrays(ms) && ArgArrays(ms[..i]) <= ArgArrays(ms)
  {
    assert ms[..i + 1][..i] == ms[..i];
    ArgArraysPrefix(ms, i + 1);
    ArgArraysPrefix(ms, i);
  }

  /** The index of the first Return answering call `id`, or |items|. */
  function FirstWithId(items: seq<RemoteReturn>, id: int): (k: nat)
    ensures k <= |items|
    ensures forall j :: 0 <= j < k ==> items[j].callId != id
    ensures k < |items| ==> items[k].callId == id
  {
    if items == [] then 0
    else if items[0].callId == id then 0
    else 1 + FirstWithId(items[1..], id)
  }

  /** Whether an outbound argument is exported before sending: a non-null value for an interface-typed parameter. */
  predicate ExportsArg(p: Param, v: Value) {
    p.isInterface && v != Null
  }

  /** The instance under which an argument is exported. */
  function ExportKey(p: Param, randomId: int): RemoteInstance {
    RemoteInstance(randomId, p.typeName)
  }

  /** Removing a queue keeps the remaining ones distinct, and drops it when it appeared once. */
  lemma {:induction false} WithoutDistinct(qs: seq<ReturnQueue>, q: ReturnQueue)
    requires forall i, j :: 0 <= i < j < |qs| ==> qs[i] != qs[j]
    ensures var r := Without(qs, q);
      && (forall i, j :: 0 <= i < j < |r| ==> r[i] != r[j])
      && (forall x :: x in r <==> x in qs && x != q)
  {
    if qs != [] && qs[0] != q {
      var tail := qs[1..];
      assert forall i, j :: 0 <= i < j < |tail| ==> tail[i] != tail[j] by {
        forall i, j | 0 <= i < j < |tail| ensures tail[i] != tail[j] {
          assert tail[i] == qs[i + 1] && tail[j] == qs[j + 1];
        }
      }
      WithoutDistinct(tail, q);
      var rest := Without(tail, q);
      assert qs[0] !in tail by {
        forall i | 0 <= i < |tail| ensures tail[i] != qs[0] {
          assert tail[i] == qs[i + 1];
        }
      }
      assert Without(qs, q) == [qs[0]] + rest;
      assert qs == [qs[0]] + tail;
    } else if qs != [] {
      var tail := qs[1..];
      assert Without(qs, q) == tail;
      forall i, j | 0 <= i < j < |tail| ensures tail[i] != tail[j] {
        assert tail[i] == qs[i + 1] && tail[j] == qs[j + 1];
      }
      forall x | x in tail ensures x != q {
        var i :| 0 <= i < |tail| && tail[i] == x;
        assert x == qs[i + 1];
      }
      assert qs == [qs[0]] + tail;
    }
  }

  /** Whether argument `n` is interface-typed, non-null and not assignable to its parameter type, so that exporting it is refused. */
  predicate RefusedAt(params: seq<Param>, vals: seq<Value>, rt: Runtime, n: nat)
    requires |vals| == |params| && n < |params|
  {
    ExportsArg(params[n], vals[n]) && !rt.isAssignable(params[n].typeName, vals[n])
  }

  /** Whether some interface-typed argument is not assignable to its parameter type, so that exporting it is refused. */
  predicate Refuses(params: seq<Param>, vals: seq<Value>, rt: Runtime)
    requires |vals| == |params|
  {
    exists n :: 0 <= n < |params| && ExportsArg(params[n], vals[n]) && !rt.isAssignable(params[n].typeName, vals[n])
  }

  /**
   * Whether every exported argument is held by `table` under its export key,
   * except where a later exported argument has the same key.
   */
  predicate ExportedIn(table: map<RemoteInstance, Value>, params: seq<Param>, vals: seq<Value>, ids: seq<int>)
    requires |vals| == |params| == |ids|
  {
    forall n ::
      0 <= n < |params| && ExportsArg(params[n], vals[n]) && LastUnderKey(params, vals, ids, n)
      ==> ExportKey(params[n], ids[n]) in table && table[ExportKey(params[n], ids[n])] == vals[n]
  }

  /** Whether no exported argument after argument `n` has the same export key. */
  predicate LastUnderKey(params: seq<Param>, vals: seq<Value>, ids: seq<int>, n: nat)
    requires |vals| == |params| == |ids| && n < |params|
  {
    forall m :: n < m < |params| && ExportsArg(params[m], vals[m]) ==> ExportKey(params[m], ids[m]) != ExportKey(params[n], ids[n])
  }

  /** Whether no argument is exported under key `k`: only non-null interface-typed arguments are. */
  predicate Untouched(k: RemoteInstance, params: seq<Param>, vals: seq<Value>, ids: seq<int>)
    requires |vals| == |params| == |ids|
  {
    forall n :: 0 <= n < |params| && ExportsArg(params[n], vals[n]) ==> k != ExportKey(params[n], ids[n])
  }

  /** Whether `after` is `before` with every value held by `table` replaced by a key holding it. */
  predicate Referenced(table: map<RemoteInstance, Value>, before: seq<Value>, after: seq<Value>) {
    && |after| == |before|
    && (forall n :: 0 <= n < |before| && before[n] in table.Values ==>
          after[n].Handle? && after[n].ri in table && table[after[n].ri] == before[n])
    && (forall n :: 0 <= n < |before| && before[n] !in table.Values ==> after[n] == before[n])
  }

  /** Exporting argument `n` (or skipping it) extends ExportedIn from the first `n` arguments to the first `n + 1`. */
  lemma ExportedInExtend(table: map<RemoteInstance, Value>, params: seq<Param>, vals: seq<Value>, ids: seq<int>, n: nat)
    requires |vals| == |params| == |ids| && n < |params|
    requires ExportedIn(table, params[..n], vals[..n], ids[..n])
    ensures var after := if ExportsArg(params[n], vals[n]) then table[ExportKey(params[n], ids[n]) := vals[n]] else table;
      ExportedIn(after, params[..n + 1], vals[..n + 1], ids[..n + 1])
  {
    var after := if ExportsArg(params[n], vals[n]) then table[ExportKey(params[n], ids[n]) := vals[n]] else table;
    var p, v, d := params[..n + 1], vals[..n + 1], ids[..n + 1];
    forall j | 0 <= j < |p| && ExportsArg(p[j], v[j]) && LastUnderKey(p, v, d, j)
      ensures ExportKey(p[j], d[j]) in after && after[ExportKey(p[j], d[j])] == v[j]
    {
      if j < n {
        LastUnderKeyShrink(params, vals, ids, n, j);
        assert params[..n][j] == p[j] && vals[..n][j] == v[j] && ids[..n][j] == d[j];
      }
    }
  }

  /**
   * An argument `j < n` that is the last of the first `n + 1` under its key is the last of the first `n`,
   * and argument `n`, when exported, has another key.
   */
  lemma LastUnderKeyShrink(params: seq<Param>, vals: seq<Value>, ids: seq<int>, n: nat, j: nat)
    requires |vals| == |params| == |ids| && j < n < |params|
    requires LastUnderKey(params[..n + 1], vals[..n + 1], ids[..n + 1], j)
    ensures LastUnderKey(params[..n], vals[..n], ids[..n], j)
    ensures ExportsArg(params[n], vals[n]) ==> ExportKey(params[n], ids[n]) != ExportKey(params[j], ids[j])
  {
    var p, v, d := params[..n + 1], vals[..n + 1], ids[..n + 1];
    assert p[n] == params[n] && v[n] == vals[n] && d[n] == ids[n] && p[j] == params[j] && d[j] == ids[j];
    forall m | j < m < n && ExportsArg(params[..n][m], vals[..n][m])
      ensures ExportKey(params[..n][m], ids[..n][m]) != ExportKey(params[..n][j], ids[..n][j])
    {
      assert params[..n][m] == p[m] && vals[..n][m] == v[m] && ids[..n][m] == d[m];
      assert params[..n][j] == p[j] && ids[..n][j] == d[j];
    }
  }

  /**
   * A key untouched by the first `n + 1` arguments is untouched by the first `n`,
   * and differs from argument `n`'s key when that argument is exported.
   */
  lemma UntouchedShrink(params: seq<Param>, vals: seq<Value>, ids: seq<int>, n: nat)
    requires |vals| == |params| == |ids| && n < |params|
    ensures forall k :: Untouched(k, params[..n + 1], vals[..n + 1], ids[..n + 1]) ==>
      && Untouched(k, params[..n], vals[..n], ids[..n])
      && (ExportsArg(params[n], vals[n]) ==> k != ExportKey(params[n], ids[n]))
  {
    forall k | Untouched(k, params[..n + 1], vals[..n + 1], ids[..n + 1])
      ensures && Untouched(k, params[..n], vals[..n], ids[..n])
              && (ExportsArg(params[n], vals[n]) ==> k != ExportKey(params[n], ids[n]))
    {
      assert params[..n + 1][n] == params[n] && vals[..n + 1][n] == vals[n] && ids[..n + 1][n] == ids[n];
      forall j | 0 <= j < n && ExportsArg(params[..n][j], vals[..n][j]) ensures k != ExportKey(params[..n][j], ids[..n][j]) {
        assert params[..n + 1][j] == params[..n][j] && vals[..n + 1][j] == vals[..n][j] && ids[..n + 1][j] == ids[..n][j];
      }
    }
  }

  /** What the first `n` steps of the export pass have done to the table `t0`, giving `t`. */
  predicate ExportProgress(t0: map<RemoteInstance, Value>, t: map<RemoteInstance, Value>, params: seq<Param>,
                           vals: seq<Value>, ids: seq<int>, rt: Runtime, n: nat)
    requires |vals| == |params| == |ids| && n <= |params|
  {
    && (forall j :: 0 <= j < n && ExportsArg(params[j], vals[j]) ==> rt.isAssignable(params[j].typeName, vals[j]))
    && ExportedIn(t, params[..n], vals[..n], ids[..n])
    && (forall k :: k in t0 ==> k in t)
    && (forall k :: k in t && Untouched(k, params[..n], vals[..n], ids[..n]) ==> k in t0 && t[k] == t0[k])
  }

  /** One accepted step of the export pass. */
  lemma ExportStep(t0: map<RemoteInstance, Value>, t: map<RemoteInstance, Value>, params: seq<Param>,
                   vals: seq<Value>, ids: seq<int>, rt: Runtime, n: nat)
    requires |vals| == |params| == |ids| && n < |params|
    requires ExportProgress(t0, t, params, vals, ids, rt, n)
    requires ExportsArg(params[n], vals[n]) ==> rt.isAssignable(params[n].typeName, vals[n])
    ensures var after := if ExportsArg(params[n], vals[n]) then t[ExportKey(params[n], ids[n]) := vals[n]] else t;
      ExportProgress(t0, after, params, vals, ids, rt, n + 1)
  {
    ExportedInExtend(t, params, vals, ids, n);
    UntouchedShrink(params, vals, ids, n);
  }

  /** The finished export pass. */
  lemma ExportDone(t0: map<RemoteInstance, Value>, t: map<RemoteInstance, Value>, params: seq<Param>,
                   vals: seq<Value>, ids: seq<int>, rt: Runtime)
    requires |vals| == |params| == |ids|
    requires ExportProgress(t0, t, params, vals, ids, rt, |params|)
    ensures !Refuses(params, vals, rt)
    ensures ExportedIn(t, params, vals, ids)
    ensures forall k :: k in t0 ==> k in t
    ensures ExportFrame(t0, t, params, vals, ids)
  {
    assert params[..|params|] == params && vals[..|params|] == vals && ids[..|params|] == ids;
  }

  /** The export pass stopped by the refusal of argument `n`. */
  lemma ExportStopped(t0: map<RemoteInstance, Value>, t: map<RemoteInstance, Value>, params: seq<Param>,
                      vals: seq<Value>, ids: seq<int>, rt: Runtime, n: nat)
    requires |vals| == |params| == |ids| && n < |params|
    requires ExportProgress(t0, t, params, vals, ids, rt, n)
    requires RefusedAt(params, vals, rt, n)
    ensures Refuses(params, vals, rt)
    ensures ExportRefused(t0, t, params, vals, ids, rt, NotAssignable(params[n].typeName))
    ensures ExportFrame(t0, t, params, vals, ids)
  {
    forall k | k in t && Untouched(k, params, vals, ids) ensures k in t0 && t[k] == t0[k] {
      forall j | 0 <= j < n && ExportsArg(params[..n][j], vals[..n][j]) ensures k != ExportKey(params[..n][j], ids[..n][j]) {
        assert params[..n][j] == params[j] && vals[..n][j] == vals[j] && ids[..n][j] == ids[j];
      }
    }
  }

  /** Every exported argument travels as a handle to the object it stands for. */
  lemma ExportedTravelAsHandles(table: map<RemoteInstance, Value>, params: seq<Param>, before: seq<Value>,
                                after: seq<Value>, ids: seq<int>, n: nat)
    requires |before| == |params| == |ids|
    requires ExportedIn(table, params, before, ids) && Referenced(table, before, after)
    requires n < |params| && ExportsArg(params[n], before[n])
    requires LastUnderKey(params, before, ids, n)
    ensures after[n].Handle? && table[after[n].ri] == before[n]
  {
    assert table[ExportKey(params[n], ids[n])] == before[n];
  }

  /**
   * What a refused export pass leaves behind: argument `n` is the first refusal
   * and `e` names its parameter type, the arguments before it are exported, and
   * no key that none of them was exported under has changed.
   */
  predicate ExportRefused(t0: map<RemoteInstance, Value>, t: map<RemoteInstance, Value>, params: seq<Param>,
                          vals: seq<Value>, ids: seq<int>, rt: Runtime, e: Throwable)
    requires |vals| == |params| == |ids|
  {
    exists n :: && 0 <= n < |params| && RefusedAt(params, vals, rt, n)
                && (forall j :: 0 <= j < n ==> !RefusedAt(params, vals, rt, j))
                && e == NotAssignable(params[n].typeName)
                && ExportedIn(t, params[..n], vals[..n], ids[..n])
                && (forall k :: k in t && Untouched(k, params[..n], vals[..n], ids[..n]) ==> k in t0 && t[k] == t0[k])
  }

  /** Whether the export table `t` keeps every key of `t0`, and changed none that no argument was exported under. */
  predicate ExportFrame(t0: map<RemoteInstance, Value>, t: map<RemoteInstance, Value>, params: seq<Param>,
                       vals: seq<Value>, ids: seq<int>)
    requires |vals| == |params| == |ids|
  {
    && (forall k :: k in t0 ==> k in t)
    && (forall k :: k in t && Untouched(k, params, vals, ids) ==> k in t0 && t[k] == t0[k])
  }

  /** Whether the proxy table `after` keeps every entry of `before`. */
  predicate Extends(before: map<RemoteInstance, Option<Proxy>>, after: map<RemoteInstance, Option<Proxy>>) {
    forall ri :: ri in before ==> ri in after && after[ri] == before[ri]
  }

  /**
   * Whether `after` is `before` with every RemoteInstance replaced by the
   * proxy `proxys` holds for it (null where its class could not be loaded).
   */
  predicate Proxied(after: seq<Value>, before: seq<Value>, proxys: map<RemoteInstance, Option<Proxy>>) {
    && |after| == |before|
    && (forall n :: 0 <= n < |before| && before[n].Handle? ==>
          before[n].ri in proxys && after[n] == ProxyValue(proxys[before[n].ri]))
    && (forall n :: 0 <= n < |before| && !before[n].Handle? ==> after[n] == before[n])
  }

  /** A rewritten argument list holds no RemoteInstance, so rewriting it again changes nothing. */
  lemma ProxiedAgain(after: seq<Value>, mid: seq<Value>, before: seq<Value>,
                     p: map<RemoteInstance, Option<Proxy>>, p2: map<RemoteInstance, Option<Proxy>>)
    requires Proxied(mid, before, p) && Proxied(after, mid, p2) && Extends(p, p2)
    ensures after == mid && Proxied(after, before, p2)
  {
    forall n | 0 <= n < |mid| ensures !mid[n].Handle? {
      if before[n].Handle? {
        assert mid[n] == ProxyValue(p[before[n].ri]);
      }
    }
  }

  /** A rewriting stays one under a proxy table that only grew. */
  lemma ProxiedWiden(after: seq<Value>, before: seq<Value>,
                     p: map<RemoteInstance, Option<Proxy>>, p2: map<RemoteInstance, Option<Proxy>>)
    requires Proxied(after, before, p) && Extends(p, p2)
    ensures Proxied(after, before, p2)
  {
    forall n | 0 <= n < |before| && before[n].Handle?
      ensures before[n].ri in p2 && after[n] == ProxyValue(p2[before[n].ri])
    {
      assert before[n].ri in p;
    }
  }

  /** The contents of the arrays `s`. */
  ghost function Contents(s: set<array<Value>>): (m: map<array<Value>, seq<Value>>)
    reads s
    ensures m.Keys == s
  {
    map a | a in s :: a[..]
  }

  /**
   * Whether, of the argument arrays of the Calls in `ms`, those of the first
   * `k` messages went from `before` to `after` by the proxy rewriting under
   * `proxys`, and the others are unchanged.
   */
  predicate ArgsProxied(ms: seq<Message>, k: nat, before: map<array<Value>, seq<Value>>,
                        after: map<array<Value>, seq<Value>>, proxys: map<RemoteInstance, Option<Proxy>>)
    requires k <= |ms|
  {
    && before.Keys == after.Keys == ArgArrays(ms)
    && (forall a :: a in ArgArrays(ms[..k]) ==> a in before && a in after && Proxied(after[a], before[a], proxys))
    && (forall a :: a in ArgArrays(ms) && a !in ArgArrays(ms[..k]) ==> after[a] == before[a])
  }

  /** Reading message `i` extends ArgsProxied from the first `i` messages to the first `i + 1`. */
  lemma ArgsProxiedStep(ms: seq<Message>, i: nat, orig: map<array<Value>, seq<Value>>,
                        cur: map<array<Value>, seq<Value>>, post: map<array<Value>, seq<Value>>,
                        p: map<RemoteInstance, Option<Proxy>>, p2: map<RemoteInstance, Option<Proxy>>)
    requires i < |ms|
    requires ArgsProxied(ms, i, orig, cur, p) && post.Keys == ArgArrays(ms) && Extends(p, p2)
    requires forall a :: a in ArgArrays(ms) && a !in ArgsOf(ms[i]) ==> post[a] == cur[a]
    requires forall a :: a in ArgsOf(ms[i]) && a in ArgArrays(ms) ==> Proxied(post[a], cur[a], p2)
    ensures ArgsProxied(ms, i + 1, orig, post, p2)
    ensures !ms[i].CallMsg? ==> ArgsProxied(ms, i, orig, post, p2)
  {
    ArgArraysStep(ms, i);
    var done, next := ArgArrays(ms[..i]), ArgArrays(ms[..i + 1]);
    forall a | a in next ensures a in orig && a in post && Proxied(post[a], orig[a], p2) {
      if a in ArgsOf(ms[i]) {
        if a in done {
          ProxiedAgain(post[a], cur[a], orig[a], p, p2);
        } else {
          assert cur[a] == orig[a];
        }
      } else {
        assert a in done && post[a] == cur[a];
        ProxiedWiden(cur[a], orig[a], p, p2);
      }
    }
    forall a | a in ArgArrays(ms) && a !in next ensures post[a] == orig[a] {
      assert a !in done && a !in ArgsOf(ms[i]);
    }
    if !ms[i].CallMsg? {
      assert next == done;
    }
  }


  /**
   * How a caller's outcome follows from the Returns its queue received: no
   * Return for `id` means the connection was aborted, a fault carrying a
   * throwable rethrows it, any other value but a RemoteInstance is returned as is.
   */
  predicate Answered(rets: seq<RemoteReturn>, id: int, out: Result<Value, Throwable>) {
    var k := FirstWithId(rets, id);
    && (k == |rets| ==> out == Failure(ConnectionAborted))
    && (k < |rets| && rets[k].throwing && rets[k].ret.Exc? ==> out == Failure(rets[k].ret.t))
    && (k < |rets| && !(rets[k].throwing && rets[k].ret.Exc?) && !rets[k].ret.Handle? ==> out == Success(rets[k].ret))
  }

  /**
   * The outcome when the Return for `id` carries a RemoteInstance: the proxy
   * the table `after` holds for it (the one `before` already held, if any), or
   * ClassNotFound when its interface cannot be loaded.
   */
  predicate AnsweredWithProxy(rets: seq<RemoteReturn>, id: int, out: Result<Value, Throwable>,
                              before: map<RemoteInstance, Option<Proxy>>, after: map<RemoteInstance, Option<Proxy>>,
                              loadable: set<string>)
  {
    var k := FirstWithId(rets, id);
    k < |rets| && !(rets[k].throwing && rets[k].ret.Exc?) && rets[k].ret.Handle? ==>
      var ri := rets[k].ret.ri;
      && (ri.className !in loadable ==> out == Failure(ClassNotFound(ri.className)))
      && (ri.className in loadable ==>
            out.Success? && out.value.Stub? && ri in after && after[ri] == Some(out.value.proxy))
      && (ri.className in loadable && ri in before ==> out == Success(ProxyValue(before[ri])))
  }

  class ConnectionHandler {
    /** Handles incoming calls; may be shared by several connections. */
    const callHandler: CallHandler
    /** The shared call-id counter. */
    const counter: CallCounter
    /** This connection's identifier cache. */
    const cache: Cache
    /** The interface names `Class.forName` can load on this side. */
    const loadable: set<string>

    /** Every message written to the output stream, in order. */
    var sent: seq<Message>
    /** Proxies built for remote instances learned from the peer (null where the class could not be loaded). */
    var remoteInstanceProxys: map<RemoteInstance, Option<Proxy>>
    /** The queues of all waiting callers. */
    var remoteReturnsQueues: seq<ReturnQueue>

    ghost predicate Valid()
      reads this`remoteReturnsQueues, this`remoteInstanceProxys
    {
      && (forall i, j :: 0 <= i < j < |remoteReturnsQueues| ==> remoteReturnsQueues[i] != remoteReturnsQueues[j])
      && (forall ri :: ri in remoteInstanceProxys ==> (remoteInstanceProxys[ri].Some? <==> ri.className in loadable))
    }

    ghost function Queues(): set<ReturnQueue>
      reads this`remoteReturnsQueues
    {
      set i | 0 <= i < |remoteReturnsQueues| :: remoteReturnsQueues[i]
    }

    /** What every waiting caller's queue holds. */
    ghost function Items(): (r: seq<seq<RemoteReturn>>)
      reads this, Queues()
      ensures |r| == |remoteReturnsQueues|
      ensures forall j :: 0 <= j < |r| ==> r[j] == remoteReturnsQueues[j].items
    {
      seq(|remoteReturnsQueues|, j requires 0 <= j < |remoteReturnsQueues| reads this, Queues() =>
        remoteReturnsQueues[j].items)
    }

    /** Opening a connection writes the three handshake beacons 0, 1, 2 before anything else. */
    constructor (callHandler: CallHandler, counter: CallCounter, loadable: set<string>)
      ensures Valid()
      ensures sent == [BeaconMsg(0), BeaconMsg(1), BeaconMsg(2)]
      ensures remoteInstanceProxys == map[] && remoteReturnsQueues == []
      ensures this.callHandler == callHandler && this.counter == counter && this.loadable == loadable
      ensures fresh(cache) && cache.classCache == map[] && cache.classNameCache == map[]
    {
      this.callHandler := callHandler;
      this.counter := counter;
      this.loadable := loadable;
      cache := new Cache();
      sent := [];
      remoteInstanceProxys := map[];
      remoteReturnsQueues := [];
      new;
      SendMessage(BeaconMsg(0));
      SendMessage(BeaconMsg(1));
      SendMessage(BeaconMsg(2));
    }

    /** `sendMessage`: one message is appended to the stream. */
    method SendMessage(m: Message)
      modifies this`sent
      ensures sent == old(sent) + [m]
    {
      sent := sent + [m];
    }

    /**
     * `getProxyFromRemoteInstance`: the proxy memoized for an equal instance, or
     * a new one, built once and remembered; null (also remembered) when the
     * interface cannot be loaded.
     */
    method GetProxyFromRemoteInstance(ri: RemoteInstance) returns (proxy: Option<Proxy>)
      requires Valid()
      modifies this`remoteInstanceProxys
      ensures Valid()
      ensures ri in old(remoteInstanceProxys) ==>
        proxy == old(remoteInstanceProxys[ri]) && remoteInstanceProxys == old(remoteInstanceProxys)
      ensures ri !in old(remoteInstanceProxys) ==>
        remoteInstanceProxys == old(remoteInstanceProxys)[ri := proxy]
        && (proxy.Some? <==> ri.className in loadable)
        && (proxy.Some? ==> fresh(proxy.value) && proxy.value.iface == ri.className)
    {
      if ri in remoteInstanceProxys && remoteInstanceProxys[ri].Some? {
        return remoteInstanceProxys[ri];
      }
      if ri.className in loadable {
        var p := new Proxy(ri.className);
        proxy := Some(p);
      } else {
        proxy := None;
      }
      remoteInstanceProxys := remoteInstanceProxys[ri := proxy];
    }

    /** `getRemoteInstanceFromProxy`: an instance whose proxy is `proxy`, null exactly when there is none. */
    method GetRemoteInstanceFromProxy(proxy: Proxy) returns (r: Option<RemoteInstance>)
      ensures r.Some? ==> r.value in remoteInstanceProxys && remoteInstanceProxys[r.value] == Some(proxy)
      ensures r.None? <==> Some(proxy) !in remoteInstanceProxys.Values
    {
      var keys := remoteInstanceProxys.Keys;
      while keys != {}
        invariant keys <= remoteInstanceProxys.Keys
        invariant forall k :: k in remoteInstanceProxys && k !in keys ==> remoteInstanceProxys[k] != Some(proxy)
        decreases keys
      {
        var k :| k in keys;
        if remoteInstanceProxys[k] == Some(proxy) {
          return Some(k);
        }
        keys := keys - {k};
      }
      return None;
    }

    /** The reader's rewriting of an incoming call's arguments: each RemoteInstance becomes its proxy. */
    method ProxyArguments(args: array<Value>)
      requires Valid()
      modifies this`remoteInstanceProxys, args
      ensures Valid()
      ensures forall n :: 0 <= n < args.Length && old(args[n]).Handle? ==>
        old(args[n]).ri in remoteInstanceProxys && args[n] == ProxyValue(remoteInstanceProxys[old(args[n]).ri])
      ensures forall n :: 0 <= n < args.Length && !old(args[n]).Handle? ==> args[n] == old(args[n])
      ensures forall ri :: ri in old(remoteInstanceProxys) ==>
        ri in remoteInstanceProxys && remoteInstanceProxys[ri] == old(remoteInstanceProxys[ri])
      ensures Proxied(args[..], old(args[..]), remoteInstanceProxys)
    {
      var n := 0;
      while n < args.Length
        invariant 0 <= n <= args.Length
        invariant Valid()
        invariant forall k :: 0 <= k < n && old(args[k]).Handle? ==>
          old(args[k]).ri in remoteInstanceProxys && args[k] == ProxyValue(remoteInstanceProxys[old(args[k]).ri])
        invariant forall k :: 0 <= k < n && !old(args[k]).Handle? ==> args[k] == old(args[k])
        invariant forall k :: n <= k < args.Length ==> args[k] == old(args[k])
        invariant forall ri :: ri in old(remoteInstanceProxys) ==>
          ri in remoteInstanceProxys && remoteInstanceProxys[ri] == old(remoteInstanceProxys[ri])
      {
        var arg := args[n];
        if arg.Handle? {
          var proxy := GetProxyFromRemoteInstance(arg.ri);
          args[n] := ProxyValue(proxy);
        }
        n := n + 1;
      }
    }

    /** The reader's offer of a Return to every registered queue. */
    method Broadcast(ret: RemoteReturn)
      requires Valid()
      modifies Queues()
      ensures forall i :: 0 <= i < |remoteReturnsQueues| ==>
        remoteReturnsQueues[i].items == old(remoteReturnsQueues[i].items) + [ret]
    {
      var i := 0;
      while i < |remoteReturnsQueues|
        invariant 0 <= i <= |remoteReturnsQueues|
        invariant forall k :: 0 <= k < i ==> remoteReturnsQueues[k].items == old(remoteReturnsQueues[k].items) + [ret]
        invariant forall k :: i <= k < |remoteReturnsQueues| ==> remoteReturnsQueues[k].items == old(remoteReturnsQueues[k].items)
      {
        var q := remoteReturnsQueues[i];
        q.items := q.items + [ret];
        i := i + 1;
      }
    }

    /**
     * The body of the reader loop for one message: a Call has its instance
     * arguments turned into proxies and is dispatched, a Return is offered to
     * every queue, a Beacon is skipped, anything else is a protocol error.
     */
    method HandleMessage(msg: Message) returns (step: Step)
      requires Valid()
      modifies this`remoteInstanceProxys, Queues(), ArgsOf(msg)
      ensures Valid()
      ensures msg.CallMsg? ==> step == Dispatch(msg.call)
      ensures msg.CallMsg? && msg.call.args != null ==>
        var args := msg.call.args;
        && (forall n :: 0 <= n < args.Length && old(args[n]).Handle? ==>
              old(args[n]).ri in remoteInstanceProxys && args[n] == ProxyValue(remoteInstanceProxys[old(args[n]).ri]))
        && (forall n :: 0 <= n < args.Length && !old(args[n]).Handle? ==> args[n] == old(args[n]))
      ensures forall a :: a in ArgsOf(msg) ==> Proxied(a[..], old(a[..]), remoteInstanceProxys)
      ensures msg.ReturnMsg? ==> step == Delivered
      ensures msg.BeaconMsg? ==> step == Skipped
      ensures msg.OtherMsg? ==> step == Fail(UnknownMessageType)
      ensures forall i :: 0 <= i < |remoteReturnsQueues| ==>
        remoteReturnsQueues[i].items == old(remoteReturnsQueues[i].items) + (if msg.ReturnMsg? then [msg.result] else [])
      ensures !msg.CallMsg? ==> remoteInstanceProxys == old(remoteInstanceProxys)
      ensures forall ri :: ri in old(remoteInstanceProxys) ==>
        ri in remoteInstanceProxys && remoteInstanceProxys[ri] == old(remoteInstanceProxys[ri])
    {
      match msg
      case CallMsg(call) =>
        if call.args != null {
          ProxyArguments(call.args);
        }
        step := Dispatch(call);
      case ReturnMsg(ret) =>
        Broadcast(ret);
        step := Delivered;
      case BeaconMsg(_) =>
        step := Skipped;
      case OtherMsg =>
        step := Fail(UnknownMessageType);
    }

    /**
     * The reader loop over the messages it reads, until one it cannot handle:
     * the Calls it dispatched, and the protocol error that ended it, if any.
     * Every waiting queue receives every Return read, in order; the failure path
     * delivers nothing more to the queues.
     */
    method Run(incoming: seq<Message>) returns (dispatched: seq<RemoteCall>, failure: Option<Throwable>)
      requires Valid()
      modifies this`remoteInstanceProxys, Queues(), ArgArrays(incoming)
      ensures Valid()
      ensures var k := FirstOther(incoming);
        && dispatched == CallsOf(incoming[..k])
        && failure == (if k < |incoming| then Some(UnknownMessageType) else None)
        && forall i :: 0 <= i < |remoteReturnsQueues| ==>
             remoteReturnsQueues[i].items == old(remoteReturnsQueues[i].items) + ReturnsOf(incoming[..k])
      ensures forall ri :: ri in old(remoteInstanceProxys) ==>
        ri in remoteInstanceProxys && remoteInstanceProxys[ri] == old(remoteInstanceProxys[ri])
      ensures ArgsProxied(incoming, FirstOther(incoming), old(Contents(ArgArrays(incoming))),
                          Contents(ArgArrays(incoming)), remoteInstanceProxys)
    {
      dispatched, failure := [], None;
      ghost var base := Items();
      var i := 0;
      while i < |incoming|
        invariant 0 <= i <= FirstOther(incoming)
        invariant Valid()
        invariant dispatched == CallsOf(incoming[..i])
        invariant forall j :: 0 <= j < |base| ==> remoteReturnsQueues[j].items == base[j] + ReturnsOf(incoming[..i])
        invariant forall ri :: ri in old(remoteInstanceProxys) ==>
          ri in remoteInstanceProxys && remoteInstanceProxys[ri] == old(remoteInstanceProxys[ri])
        invariant ArgsProxied(incoming, i, old(Contents(ArgArrays(incoming))), Contents(ArgArrays(incoming)),
                              remoteInstanceProxys)
      {
        MessagesStep(incoming, i);
        var step := ReadMessage(incoming, i, old(Contents(ArgArrays(incoming))), base);
        if step.Fail? {
          failure := Some(step.error);
          break;
        }
        if step.Dispatch? {
          dispatched := dispatched + [step.call];
        }
        i := i + 1;
      }
    }

    /** One turn of the reader loop: message `i` of `incoming` is handled, its Call arguments rewritten. */
    method ReadMessage(incoming: seq<Message>, i: nat, ghost orig: map<array<Value>, seq<Value>>,
                       ghost base: seq<seq<RemoteReturn>>) returns (step: Step)
      requires Valid()
      requires i < |incoming|
      requires ArgsProxied(incoming, i, orig, Contents(ArgArrays(incoming)), remoteInstanceProxys)
      requires |base| == |remoteReturnsQueues|
      requires forall j :: 0 <= j < |base| ==> remoteReturnsQueues[j].items == base[j] + ReturnsOf(incoming[..i])
      modifies this`remoteInstanceProxys, Queues(), ArgArrays(incoming)
      ensures Valid()
      ensures incoming[i].CallMsg? ==> step == Dispatch(incoming[i].call)
      ensures incoming[i].ReturnMsg? ==> step == Delivered
      ensures incoming[i].BeaconMsg? ==> step == Skipped
      ensures incoming[i].OtherMsg? ==> step == Fail(UnknownMessageType)
      ensures Extends(old(remoteInstanceProxys), remoteInstanceProxys)
      ensures var n := if step.Fail? then i else i + 1;
        && ArgsProxied(incoming, n, orig, Contents(ArgArrays(incoming)), remoteInstanceProxys)
        && forall j :: 0 <= j < |base| ==> remoteReturnsQueues[j].items == base[j] + ReturnsOf(incoming[..n])
    {
      MessagesStep(incoming, i);
      ghost var extra := if incoming[i].ReturnMsg? then [incoming[i].result] else [];
      step := RewriteMessage(incoming, i, orig);
      forall j | 0 <= j < |base| ensures remoteReturnsQueues[j].items == base[j] + ReturnsOf(incoming[..i + 1]) {
        AppendAssoc(base[j], ReturnsOf(incoming[..i]), extra);
      }
    }

    /** HandleMessage on message `i` of `incoming`, with its effect on the argument arrays of all of `incoming`. */
    method RewriteMessage(incoming: seq<Message>, i: nat, ghost orig: map<array<Value>, seq<Value>>) returns (step: Step)
      requires Valid()
      requires i < |incoming|
      requires ArgsProxied(incoming, i, orig, Contents(ArgArrays(incoming)), remoteInstanceProxys)
      modifies this`remoteInstanceProxys, Queues(), ArgArrays(incoming)
      ensures Valid()
      ensures incoming[i].CallMsg? ==> step == Dispatch(incoming[i].call)
      ensures incoming[i].ReturnMsg? ==> step == Delivered
      ensures incoming[i].BeaconMsg? ==> step == Skipped
      ensures incoming[i].OtherMsg? ==> step == Fail(UnknownMessageType)
      ensures forall j :: 0 <= j < |remoteReturnsQueues| ==>
        remoteReturnsQueues[j].items
          == old(remoteReturnsQueues[j].items) + (if incoming[i].ReturnMsg? then [incoming[i].result] else [])
      ensures Extends(old(remoteInstanceProxys), remoteInstanceProxys)
      ensures ArgsProxied(incoming, if step.Fail? then i else i + 1, orig, Contents(ArgArrays(incoming)), remoteInstanceProxys)
    {
      ArgArraysStep(incoming, i);
      ghost var cur, proxysBefore := Contents(ArgArrays(incoming)), remoteInstanceProxys;
      step := HandleMessage(incoming[i]);
      ArgsProxiedStep(incoming, i, orig, cur, Contents(ArgArrays(incoming)), proxysBefore, remoteInstanceProxys);
    }

    /**
     * A delegator worker for one dispatched call: delegate it and send the
     * Return; when delegation throws, nothing is sent.
     */
    method ServeCall(call: RemoteCall, rt: Runtime, freshId: int) returns (reply: Option<RemoteReturn>)
      modifies callHandler, cache, this`sent
      ensures reply.Some? ==> reply.value.callId == call.callId
      ensures call.remoteInstance !in old(callHandler.exportedObjects) ==>
        reply.None? && callHandler.exportedObjects == old(callHandler.exportedObjects) && unchanged(cache)
      ensures call.remoteInstance in old(callHandler.exportedObjects) ==>
        var impl := old(callHandler.exportedObjects[call.remoteInstance]);
        var cls := call.remoteInstance.className;
        var h := call.methodIdHash;
        var request := if call.methodId.Some? then call.methodId else old(cache.MethodName(cls, h));
        var resolved := Resolve(old(cache.MethodOf(cls, h)), request, rt.declaredMethods(impl) + rt.publicMethods(impl));
        && cache.ClassName(call.remoteInstance.instanceId) == Some(cls)
        && cache.MethodName(cls, h) == request
        && cache.MethodOf(cls, h) == (if resolved.Success? && resolved.value.Some? then resolved.value else old(cache.MethodOf(cls, h)))
        && (resolved.Failure? ==> reply.None? && callHandler.exportedObjects == old(callHandler.exportedObjects))
        && (resolved == Success(None) ==>
              reply == Some(RemoteReturn(true, Exc(NoSuchMethod(request)), call.callId))
              && callHandler.exportedObjects == old(callHandler.exportedObjects))
        && (resolved.Success? && resolved.value.Some? ==>
              reply.Some? && InvocationReturn(old(callHandler.exportedObjects), callHandler.exportedObjects, reply.value,
                                              resolved.value.value, impl, ArgValues(call.args), call.callId, rt, freshId))
      ensures forall id :: id != call.remoteInstance.instanceId ==> cache.ClassName(id) == old(cache.ClassName(id))
      ensures forall c, h :: c != call.remoteInstance.className || h != call.methodIdHash ==>
        cache.MethodName(c, h) == old(cache.MethodName(c, h)) && cache.MethodOf(c, h) == old(cache.MethodOf(c, h))
      ensures old(callHandler.Valid()) ==> callHandler.Valid()
      ensures sent == old(sent) + (if reply.Some? then [ReturnMsg(reply.value)] else [])
    {
      var r := callHandler.DelegateCall(call, cache, rt, freshId);
      if r.Success? {
        SendMessage(ReturnMsg(r.value));
        reply := Some(r.value);
      } else {
        reply := None;
      }
    }
  
    /**
     * The first argument pass of an outbound call: every non-null argument whose
     * parameter type is an interface is exported under a fresh random id; the
     * first refusal is thrown.
     */
    method ExportArguments(params: seq<Param>, vals: seq<Value>, randomIds: seq<int>, rt: Runtime)
      returns (failure: Option<Throwable>)
      requires |vals| == |params| == |randomIds|
      modifies callHandler
      ensures failure.Some? <==> Refuses(params, vals, rt)
      ensures failure.Some? ==>
        ExportRefused(old(callHandler.exportedObjects), callHandler.exportedObjects, params, vals, randomIds, rt, failure.value)
      ensures failure.None? ==> ExportedIn(callHandler.exportedObjects, params, vals, randomIds)
      ensures ExportFrame(old(callHandler.exportedObjects), callHandler.exportedObjects, params, vals, randomIds)
      ensures old(callHandler.Valid()) ==> callHandler.Valid()
    {
      var n := 0;
      while n < |params|
        invariant 0 <= n <= |params|
        invariant ExportProgress(old(callHandler.exportedObjects), callHandler.exportedObjects, params, vals, randomIds, rt, n)
        invariant old(callHandler.Valid()) ==> callHandler.Valid()
      {
        ghost var before := callHandler.exportedObjects;
        if ExportsArg(params[n], vals[n]) {
          failure := callHandler.Export(params[n].typeName, vals[n], randomIds[n], rt);
          if failure.Some? {
            ExportStopped(old(callHandler.exportedObjects), before, params, vals, randomIds, rt, n);
            return;
          }
        }
        ExportStep(old(callHandler.exportedObjects), before, params, vals, randomIds, rt, n);
        n := n + 1;
      }
      ExportDone(old(callHandler.exportedObjects), callHandler.exportedObjects, params, vals, randomIds, rt);
      failure := None;
    }

    /** The second argument pass: every argument that is an exported object is replaced by its RemoteInstance. */
    method ReferenceArguments(args: array<Value>)
      modifies args
      ensures Referenced(callHandler.exportedObjects, old(args[..]), args[..])
    {
      var n := 0;
      while n < args.Length
        invariant 0 <= n <= args.Length
        invariant forall k :: 0 <= k < n && old(args[k]) in callHandler.exportedObjects.Values ==>
          args[k].Handle? && args[k].ri in callHandler.exportedObjects && callHandler.exportedObjects[args[k].ri] == old(args[k])
        invariant forall k :: 0 <= k < n && old(args[k]) !in callHandler.exportedObjects.Values ==> args[k] == old(args[k])
        invariant forall k :: n <= k < args.Length ==> args[k] == old(args[k])
      {
        var ref := callHandler.GetRemoteReference(args[n]);
        if ref.Some? {
          args[n] := Handle(ref.value);
        }
        n := n + 1;
      }
    }

    /**
     * The outbound method-id step: the signature after the fixed 15-character
     * prefix, its short name and hash; the short name travels only while the
     * cache does not yet know (target class, hash), and is then recorded.
     */
    method PrepareCall(target: RemoteInstance, m: OutMethod, args: array?<Value>, id: int)
      returns (r: Result<RemoteCall, Throwable>)
      modifies cache
      ensures |m.text| < 15 || CallName(m.text[15..]) == "" ==>
        r == Failure(IndexOutOfBounds) && cache.classCache == old(cache.classCache)
      ensures |m.text| >= 15 && CallName(m.text[15..]) != "" ==>
        var short := CallName(m.text[15..]);
        var h := CallHandler.GenerateCallId(short);
        var known := old(cache.MethodName(target.className, h));
        && r == Success(RemoteCall(target, if known.Some? then None else Some(short), h, args, id))
        && cache.MethodName(target.className, h) == (if known.Some? then known else Some(short))
        && (forall c, x :: c != target.className || x != h ==> cache.MethodName(c, x) == old(cache.MethodName(c, x)))
      ensures forall c, x :: cache.MethodOf(c, x) == old(cache.MethodOf(c, x))
      ensures cache.classNameCache == old(cache.classNameCache)
    {
      if |m.text| < 15 {
        return Failure(IndexOutOfBounds);
      }
      var short := CallHandler.GenerateCallName(m.text[15..]);
      if short == [] {
        return Failure(IndexOutOfBounds);
      }
      var h := CallHandler.GenerateCallId(short);
      var known := cache.HasMethodID(target.className, short, h);
      if known {
        r := Success(RemoteCall(target, None, h, args, id));
      } else {
        var _ := cache.GetMethodID(target.className, Some(short), h);
        r := Success(RemoteCall(target, Some(short), h, args, id));
      }
    }

    /**
     * `remoteInvocation` up to the send: draw the call id, find the target
     * instance behind the proxy (instance 0 of its interface when the proxy is
     * not one of ours), register a new return queue, export and replace the
     * arguments, build the call and send it. A failure after the queue was
     * registered leaves it registered.
     */
    method BeginCall(proxy: Proxy, m: OutMethod, args: array?<Value>, randomIds: seq<int>, rt: Runtime)
      returns (r: Result<Pending, Throwable>)
      requires Valid()
      requires |randomIds| == |m.params|
      requires args != null ==> args.Length == |m.params|
      modifies this`remoteReturnsQueues, this`sent, counter, cache, callHandler, args
      ensures r.Success? ==> |m.text| >= 15 && CallName(m.text[15..]) != ""
      ensures r.Success? ==> sent == old(sent) + [CallMsg(r.value.call)]
      ensures forall c, x :: cache.MethodOf(c, x) == old(cache.MethodOf(c, x))
      ensures cache.classNameCache == old(cache.classNameCache)
      ensures r.Success? ==>
        var c := r.value.call;
        var short := CallName(m.text[15..]);
        var h := CallHandler.GenerateCallId(short);
        var cls := c.remoteInstance.className;
        && c.callId == old(counter.next) && c.args == args && c.methodIdHash == h
        && c.methodId == (if old(cache.MethodName(cls, h)).Some? then None else Some(short))
        && cache.MethodName(cls, h) == (if old(cache.MethodName(cls, h)).Some? then old(cache.MethodName(cls, h)) else Some(short))
        && (forall c', x :: c' != cls || x != h ==> cache.MethodName(c', x) == old(cache.MethodName(c', x)))
        && (Some(proxy) in remoteInstanceProxys.Values ==>
              c.remoteInstance in remoteInstanceProxys && remoteInstanceProxys[c.remoteInstance] == Some(proxy))
        && (Some(proxy) !in remoteInstanceProxys.Values ==> c.remoteInstance == RemoteInstance(0, proxy.iface))
      ensures Valid()
      ensures counter.next == old(counter.next) + 1
      ensures |remoteReturnsQueues| == |old(remoteReturnsQueues)| + 1
      ensures remoteReturnsQueues == old(remoteReturnsQueues) + [remoteReturnsQueues[|old(remoteReturnsQueues)|]]
      ensures var q := remoteReturnsQueues[|old(remoteReturnsQueues)|]; fresh(q) && q.items == []
      ensures Queues() == old(Queues()) + {remoteReturnsQueues[|old(remoteReturnsQueues)|]}
      ensures r.Success? ==> r.value.id == old(counter.next) && r.value.queue == remoteReturnsQueues[|old(remoteReturnsQueues)|]
      ensures r.Failure? <==>
        || (args != null && Refuses(m.params, old(args[..]), rt))
        || |m.text| < 15 || CallName(m.text[15..]) == ""
      ensures r.Failure? ==> sent == old(sent)
      ensures r.Success? && args != null ==>
        && ExportedIn(callHandler.exportedObjects, m.params, old(args[..]), randomIds)
        && Referenced(callHandler.exportedObjects, old(args[..]), args[..])
      ensures r.Failure? && args != null && Refuses(m.params, old(args[..]), rt) ==>
        && ExportRefused(old(callHandler.exportedObjects), callHandler.exportedObjects, m.params, old(args[..]), randomIds,
                         rt, r.error)
        && args[..] == old(args[..]) && unchanged(cache)
      ensures !(args != null && Refuses(m.params, old(args[..]), rt)) && (|m.text| < 15 || CallName(m.text[15..]) == "") ==>
        && r == Failure(IndexOutOfBounds)
        && cache.classCache == old(cache.classCache) && cache.classNameCache == old(cache.classNameCache)
        && (args != null ==>
              && ExportedIn(callHandler.exportedObjects, m.params, old(args[..]), randomIds)
              && Referenced(callHandler.exportedObjects, old(args[..]), args[..]))
      ensures args == null ==> callHandler.exportedObjects == old(callHandler.exportedObjects)
      ensures args != null ==>
        ExportFrame(old(callHandler.exportedObjects), callHandler.exportedObjects, m.params, old(args[..]), randomIds)
      ensures old(callHandler.Valid()) ==> callHandler.Valid()
    {
      var id, target, q := OpenCall(proxy);
      var call := SendCall(target, m, args, randomIds, rt, id);
      if call.Failure? {
        return Failure(call.error);
      }
      r := Success(Pending(id, q, call.value));
    }

    /** The bookkeeping before the arguments: the call id, the target instance, a new registered queue. */
    method OpenCall(proxy: Proxy) returns (id: int, target: RemoteInstance, q: ReturnQueue)
      requires Valid()
      modifies this`remoteReturnsQueues, counter
      ensures Valid()
      ensures id == old(counter.next) && counter.next == old(counter.next) + 1
      ensures remoteReturnsQueues == old(remoteReturnsQueues) + [q] && fresh(q) && q.items == []
      ensures Queues() == old(Queues()) + {q}
      ensures Some(proxy) in remoteInstanceProxys.Values ==>
        target in remoteInstanceProxys && remoteInstanceProxys[target] == Some(proxy)
      ensures Some(proxy) !in remoteInstanceProxys.Values ==> target == RemoteInstance(0, proxy.iface)
    {
      id := counter.GetAndIncrement();
      target := TargetOf(proxy);
      q := Register();
    }

    /** From the arguments to the send: both argument passes, the method id, the call on the stream. */
    method SendCall(target: RemoteInstance, m: OutMethod, args: array?<Value>, randomIds: seq<int>, rt: Runtime, id: int)
      returns (r: Result<RemoteCall, Throwable>)
      requires |randomIds| == |m.params|
      requires args != null ==> args.Length == |m.params|
      modifies this`sent, cache, callHandler, args
      ensures r.Failure? <==>
        || (args != null && Refuses(m.params, old(args[..]), rt))
        || |m.text| < 15 || CallName(m.text[15..]) == ""
      ensures r.Failure? ==> sent == old(sent)
      ensures r.Success? ==> |m.text| >= 15 && CallName(m.text[15..]) != ""
      ensures r.Success? ==> sent == old(sent) + [CallMsg(r.value)]
      ensures forall c, x :: cache.MethodOf(c, x) == old(cache.MethodOf(c, x))
      ensures cache.classNameCache == old(cache.classNameCache)
      ensures r.Success? ==>
        var short := CallName(m.text[15..]);
        var h := CallHandler.GenerateCallId(short);
        var known := old(cache.MethodName(target.className, h));
        && r.value == RemoteCall(target, if known.Some? then None else Some(short), h, args, id)
        && cache.MethodName(target.className, h) == (if known.Some? then known else Some(short))
        && (forall c, x :: c != target.className || x != h ==> cache.MethodName(c, x) == old(cache.MethodName(c, x)))
      ensures r.Success? && args != null ==>
        && ExportedIn(callHandler.exportedObjects, m.params, old(args[..]), randomIds)
        && Referenced(callHandler.exportedObjects, old(args[..]), args[..])
      ensures r.Failure? && args != null && Refuses(m.params, old(args[..]), rt) ==>
        && ExportRefused(old(callHandler.exportedObjects), callHandler.exportedObjects, m.params, old(args[..]), randomIds,
                         rt, r.error)
        && args[..] == old(args[..]) && unchanged(cache)
      ensures !(args != null && Refuses(m.params, old(args[..]), rt)) && (|m.text| < 15 || CallName(m.text[15..]) == "") ==>
        && r == Failure(IndexOutOfBounds)
        && cache.classCache == old(cache.classCache) && cache.classNameCache == old(cache.classNameCache)
        && (args != null ==>
              && ExportedIn(callHandler.exportedObjects, m.params, old(args[..]), randomIds)
              && Referenced(callHandler.exportedObjects, old(args[..]), args[..]))
      ensures args == null ==> callHandler.exportedObjects == old(callHandler.exportedObjects)
      ensures args != null ==>
        ExportFrame(old(callHandler.exportedObjects), callHandler.exportedObjects, m.params, old(args[..]), randomIds)
      ensures old(callHandler.Valid()) ==> callHandler.Valid()
    {
      var failure := PassArguments(m.params, args, randomIds, rt);
      if failure.Some? {
        return Failure(failure.value);
      }
      r := PrepareCall(target, m, args, id);
      if r.Success? {
        SendMessage(CallMsg(r.value));
      }
    }

    /** The instance behind a proxy of ours, or instance 0 of the proxy's interface. */
    method TargetOf(proxy: Proxy) returns (target: RemoteInstance)
      ensures Some(proxy) in remoteInstanceProxys.Values ==>
        target in remoteInstanceProxys && remoteInstanceProxys[target] == Some(proxy)
      ensures Some(proxy) !in remoteInstanceProxys.Values ==> target == RemoteInstance(0, proxy.iface)
    {
      var found := GetRemoteInstanceFromProxy(proxy);
      target := if found.Some? then found.value else RemoteInstance(0, proxy.iface);
    }

    /** Adding a new, empty return queue to the list of waiting callers. */
    method Register() returns (q: ReturnQueue)
      requires Valid()
      modifies this`remoteReturnsQueues
      ensures Valid()
      ensures remoteReturnsQueues == old(remoteReturnsQueues) + [q] && fresh(q) && q.items == []
      ensures Queues() == old(Queues()) + {q}
    {
      q := new ReturnQueue();
      remoteReturnsQueues := remoteReturnsQueues + [q];
      assert forall x :: x in Queues() <==> x in old(Queues()) || x == q by {
        forall x ensures x in Queues() <==> x in old(Queues()) || x == q {
          if x in old(Queues()) {
            var i :| 0 <= i < |old(remoteReturnsQueues)| && old(remoteReturnsQueues)[i] == x;
            assert remoteReturnsQueues[i] == x;
          }
          if x == q {
            assert remoteReturnsQueues[|old(remoteReturnsQueues)|] == x;
          }
          if x in Queues() && x != q {
            var i :| 0 <= i < |remoteReturnsQueues| && remoteReturnsQueues[i] == x;
            assert old(remoteReturnsQueues)[i] == x;
          }
        }
      }
    }

    /** Both argument passes of an outbound call, when it has arguments. */
    method PassArguments(params: seq<Param>, args: array?<Value>, randomIds: seq<int>, rt: Runtime)
      returns (failure: Option<Throwable>)
      requires |randomIds| == |params|
      requires args != null ==> args.Length == |params|
      modifies callHandler, args
      ensures failure.Some? <==> args != null && Refuses(params, old(args[..]), rt)
      ensures failure.None? && args != null ==>
        && ExportedIn(callHandler.exportedObjects, params, old(args[..]), randomIds)
        && Referenced(callHandler.exportedObjects, old(args[..]), args[..])
      ensures failure.Some? ==>
        && ExportRefused(old(callHandler.exportedObjects), callHandler.exportedObjects, params, old(args[..]), randomIds,
                         rt, failure.value)
        && args[..] == old(args[..])
      ensures args == null ==> callHandler.exportedObjects == old(callHandler.exportedObjects)
      ensures args != null ==>
        ExportFrame(old(callHandler.exportedObjects), callHandler.exportedObjects, params, old(args[..]), randomIds)
      ensures old(callHandler.Valid()) ==> callHandler.Valid()
    {
      failure := None;
      if args != null {
        failure := ExportArguments(params, args[..], randomIds, rt);
        if failure.Some? {
          return;
        }
        ReferenceArguments(args);
      }
    }

    /**
     * The waiting loop: take Returns from the caller's queue, dropping those for
     * other calls, until the one for `id`; null when the queue runs dry first.
     */
    method AwaitReturn(q: ReturnQueue, id: int) returns (ret: Option<RemoteReturn>)
      modifies q`items
      ensures var k := FirstWithId(old(q.items), id);
        && (k < |old(q.items)| ==> ret == Some(old(q.items)[k]) && q.items == old(q.items)[k + 1..])
        && (k == |old(q.items)| ==> ret == None && q.items == [])
    {
      ghost var i := 0;
      ret := None;
      while q.items != [] && ret.None?
        invariant 0 <= i <= |old(q.items)|
        invariant q.items == old(q.items)[i..]
        invariant ret.None? ==> forall j :: 0 <= j < i ==> old(q.items)[j].callId != id
        invariant ret.Some? ==> 0 < i && i - 1 == FirstWithId(old(q.items), id) && ret == Some(old(q.items)[i - 1])
        decreases |q.items|
      {
        var next := q.items[0];
        q.items := q.items[1..];
        i := i + 1;
        if next.callId == id {
          ret := Some(next);
        }
      }
    }

    /**
     * `remoteInvocation` after the wait: remove the caller's queue, then turn the
     * Return into the caller's outcome — no Return is "Connection aborted", a
     * fault carrying a throwable rethrows it, a RemoteInstance becomes its
     * (memoized or newly built) proxy, anything else is returned as is.
     */
    method EndCall(pending: Pending, ret: Option<RemoteReturn>) returns (out: Result<Value, Throwable>)
      requires Valid()
      modifies this`remoteReturnsQueues, this`remoteInstanceProxys
      ensures Valid()
      ensures remoteReturnsQueues == Without(old(remoteReturnsQueues), pending.queue)
      ensures ret.None? ==> out == Failure(ConnectionAborted) && remoteInstanceProxys == old(remoteInstanceProxys)
      ensures ret.Some? && ret.value.throwing && ret.value.ret.Exc? ==>
        out == Failure(ret.value.ret.t) && remoteInstanceProxys == old(remoteInstanceProxys)
      ensures ret.Some? && !(ret.value.throwing && ret.value.ret.Exc?) && !ret.value.ret.Handle? ==>
        out == Success(ret.value.ret) && remoteInstanceProxys == old(remoteInstanceProxys)
      ensures ret.Some? && !(ret.value.throwing && ret.value.ret.Exc?) && ret.value.ret.Handle? ==>
        var ri := ret.value.ret.ri;
        && (ri.className !in loadable ==> out == Failure(ClassNotFound(ri.className)))
        && (ri in old(remoteInstanceProxys) && ri.className in loadable ==>
              out == Success(ProxyValue(old(remoteInstanceProxys[ri]))) && remoteInstanceProxys == old(remoteInstanceProxys))
        && (ri !in old(remoteInstanceProxys) && ri.className in loadable ==>
              out.Success? && out.value.Stub? && fresh(out.value.proxy) && out.value.proxy.iface == ri.className
              && remoteInstanceProxys == old(remoteInstanceProxys)[ri := Some(out.value.proxy)])
        && (out.Failure? ==> remoteInstanceProxys == old(remoteInstanceProxys))
    {
      remoteReturnsQueues := Without(remoteReturnsQueues, pending.queue);
      assert Valid() by { WithoutDistinct(old(remoteReturnsQueues), pending.queue); }
      if ret.None? {
        return Failure(ConnectionAborted);
      }
      var rr := ret.value;
      if rr.throwing && rr.ret.Exc? {
        return Failure(rr.ret.t);
      }
      if rr.ret.Handle? {
        var ri := rr.ret.ri;
        if ri in remoteInstanceProxys && remoteInstanceProxys[ri].Some? {
          return Success(Stub(remoteInstanceProxys[ri].value));
        }
        if ri.className !in loadable {
          return Failure(ClassNotFound(ri.className));
        }
        var p := new Proxy(ri.className);
        remoteInstanceProxys := remoteInstanceProxys[ri := Some(p)];
        return Success(Stub(p));
      }
      out := Success(rr.ret);
    }

    /**
     * A whole outbound call with the reader in between: after the call is sent
     * the reader handles `incoming`, then the caller waits and finishes. The
     * caller's outcome is decided by the first Return carrying its call id among
     * the messages read; when the call completes, the queue list is as it was.
     */
    method RemoteInvocation(proxy: Proxy, m: OutMethod, args: array?<Value>, randomIds: seq<int>, rt: Runtime,
                            incoming: seq<Message>) returns (out: Result<Value, Throwable>)
      requires Valid()
      requires |randomIds| == |m.params|
      requires args != null ==> args.Length == |m.params|
      modifies this`remoteReturnsQueues, this`sent, this`remoteInstanceProxys, counter, cache, callHandler, args
      modifies Queues(), ArgArrays(incoming)
      ensures Valid()
      ensures (args != null && Refuses(m.params, old(args[..]), rt)) || |m.text| < 15 || CallName(m.text[15..]) == "" ==>
        out.Failure? && |remoteReturnsQueues| == |old(remoteReturnsQueues)| + 1 && sent == old(sent)
      ensures !((args != null && Refuses(m.params, old(args[..]), rt)) || |m.text| < 15 || CallName(m.text[15..]) == "") ==>
        var rets := ReturnsOf(incoming[..FirstOther(incoming)]);
        && remoteReturnsQueues == old(remoteReturnsQueues)
        && (forall i :: 0 <= i < |remoteReturnsQueues| ==>
              remoteReturnsQueues[i].items == old(remoteReturnsQueues[i].items) + rets)
        && Answered(rets, old(counter.next), out)
    {
      var begun := BeginCall(proxy, m, args, randomIds, rt);
      if begun.Failure? {
        return Failure(begun.error);
      }
      out := CompleteCall(begun.value, incoming);
    }

    /**
     * The rest of `remoteInvocation` with the reader in between: the reader
     * handles `incoming`, then the caller waits and finishes, removing the queue
     * it registered last.
     */
    method CompleteCall(pending: Pending, incoming: seq<Message>) returns (out: Result<Value, Throwable>)
      requires Valid()
      requires |remoteReturnsQueues| > 0 && remoteReturnsQueues[|remoteReturnsQueues| - 1] == pending.queue
      requires pending.queue.items == []
      modifies this`remoteReturnsQueues, this`remoteInstanceProxys, Queues(), ArgArrays(incoming)
      ensures Valid()
      ensures remoteReturnsQueues == old(remoteReturnsQueues[..|remoteReturnsQueues| - 1])
      ensures var rets := ReturnsOf(incoming[..FirstOther(incoming)]);
        && (forall i :: 0 <= i < |remoteReturnsQueues| ==>
              remoteReturnsQueues[i].items == old(remoteReturnsQueues[i].items) + rets)
        && Answered(rets, pending.id, out)
        && AnsweredWithProxy(rets, pending.id, out, old(remoteInstanceProxys), remoteInstanceProxys, loadable)
      ensures Extends(old(remoteInstanceProxys), remoteInstanceProxys)
    {
      ghost var others := remoteReturnsQueues[..|remoteReturnsQueues| - 1];
      assert remoteReturnsQueues == others + [pending.queue];
      var ret := ReadAndAwait(pending, incoming);
      out := EndCall(pending, ret);
      WithoutAppended(others, pending.queue);
    }

    /**
     * The reader handles `incoming`, then the caller takes from its queue: it
     * gets the first Return for its call id among those read, if any; every
     * other queue receives all of them.
     */
    method ReadAndAwait(pending: Pending, incoming: seq<Message>) returns (ret: Option<RemoteReturn>)
      requires Valid()
      requires |remoteReturnsQueues| > 0 && remoteReturnsQueues[|remoteReturnsQueues| - 1] == pending.queue
      requires pending.queue.items == []
      modifies this`remoteInstanceProxys, Queues(), ArgArrays(incoming)
      ensures Valid()
      ensures var rets := ReturnsOf(incoming[..FirstOther(incoming)]);
        var k := FirstWithId(rets, pending.id);
        && ret == (if k < |rets| then Some(rets[k]) else None)
        && (forall i :: 0 <= i < |remoteReturnsQueues| - 1 ==>
              remoteReturnsQueues[i].items == old(remoteReturnsQueues[i].items) + rets)
      ensures Extends(old(remoteInstanceProxys), remoteInstanceProxys)
      ensures ArgsProxied(incoming, FirstOther(incoming), old(Contents(ArgArrays(incoming))),
                          Contents(ArgArrays(incoming)), remoteInstanceProxys)
    {
      var _, _ := Run(incoming);
      ghost var snap := Contents(ArgArrays(incoming));
      ghost var rets := ReturnsOf(incoming[..FirstOther(incoming)]);
      assert pending.queue.items == rets by {
        assert remoteReturnsQueues[|remoteReturnsQueues| - 1] == pending.queue;
      }
      ret := AwaitReturn(pending.queue, pending.id);
      assert Contents(ArgArrays(incoming)) == snap;
      forall i | 0 <= i < |remoteReturnsQueues| - 1
        ensures remoteReturnsQueues[i].items == old(remoteReturnsQueues[i].items) + rets
      {
        assert remoteReturnsQueues[i] != pending.queue;
      }
    }
}
}
