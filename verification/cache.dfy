/**
 * The identifier cache of one connection: instance id -> class name, and per
 * class, method-id hash -> short method signature and -> resolved method.
 * Every accessor stores when given a non-null value and looks up otherwise.
 */
module IdentifierCache {
  import opened Wrappers
  import opened Reflection

  /**
   * The two tables kept for one class. The Java object is reachable only through
   * the cache, so updating its maps in place is modelled as replacing the value.
   */
  datatype ClassCache = ClassCache(methodNameCache: map<int, string>, methodCache: map<int, JMethod>)

  /** What the map's generator creates for a class seen for the first time. */
  const EmptyClassCache: ClassCache := ClassCache(map[], map[])

  class Cache {
    /** Per-class tables, created lazily on first access to a class. */
    var classCache: map<string, ClassCache>
    /** Instance id -> class name. */
    var classNameCache: map<int, string>

    constructor ()
      ensures classCache == map[] && classNameCache == map[]
    {
      classCache := map[];
      classNameCache := map[];
    }

    /** The class name stored under `id`, or null. */
    function ClassName(id: int): Option<string>
      reads this
    {
      if id in classNameCache then Some(classNameCache[id]) else None
    }

    /** The signature stored for (`clazz`, `methodID`), or null. */
    function MethodName(clazz: string, methodID: int): Option<string>
      reads this
    {
      if clazz in classCache && methodID in classCache[clazz].methodNameCache
      then Some(classCache[clazz].methodNameCache[methodID]) else None
    }

    /** The method stored for (`clazz`, `methodID`), or null. */
    function MethodOf(clazz: string, methodID: int): Option<JMethod>
      reads this
    {
      if clazz in classCache && methodID in classCache[clazz].methodCache
      then Some(classCache[clazz].methodCache[methodID]) else None
    }

    /** `classCache.get(clazz)`: the class's tables, created empty if the class is new. */
    method ClassEntry(clazz: string) returns (cc: ClassCache)
      modifies this
      ensures cc == (if clazz in old(classCache) then old(classCache[clazz]) else EmptyClassCache)
      ensures classCache == old(classCache)[clazz := cc]
      ensures classNameCache == old(classNameCache)
    {
      if clazz in classCache {
        cc := classCache[clazz];
      } else {
        cc := EmptyClassCache;
        classCache := classCache[clazz := cc];
      }
    }

    /** `hasClassID(id)`: whether a class name is stored under `id`. */
    method HasClassID(id: int) returns (b: bool)
      ensures b <==> id in classNameCache
      ensures b <==> ClassName(id).Some?
    {
      b := id in classNameCache;
    }

    /**
     * `getClassID(className, classID)`: a non-null name is stored (replacing any
     * earlier one) and returned; null looks up what is stored.
     */
    method GetClassID(className: Option<string>, classID: int) returns (r: Option<string>)
      modifies this
      ensures className.Some? ==> r == className && ClassName(classID) == className
      ensures className.None? ==> r == old(ClassName(classID))
      ensures forall id :: id != classID || className.None? ==> ClassName(id) == old(ClassName(id))
      ensures classCache == old(classCache)
    {
      if className.Some? {
        classNameCache := classNameCache[classID := className.value];
        return className;
      }
      r := if classID in classNameCache then Some(classNameCache[classID]) else None;
    }

    /**
     * `hasMethodID(clazz, methodName, methodID)`: whether a signature is stored for
     * the pair; `methodName` plays no part. A class seen for the first time gets
     * its empty tables.
     */
    method HasMethodID(clazz: string, methodName: string, methodID: int) returns (b: bool)
      modifies this
      ensures b <==> old(MethodName(clazz, methodID)).Some?
      ensures classCache.Keys == old(classCache.Keys) + {clazz}
      ensures forall c, h :: MethodName(c, h) == old(MethodName(c, h))
      ensures forall c, h :: MethodOf(c, h) == old(MethodOf(c, h))
      ensures classNameCache == old(classNameCache)
    {
      var cc := ClassEntry(clazz);
      b := methodID in cc.methodNameCache;
    }

    /**
     * `getMethodID(clazz, methodName, methodID)`: a non-null signature is stored
     * under (`clazz`, `methodID`), replacing any earlier one, and returned; null
     * looks up what is stored. No other pair changes.
     */
    method GetMethodID(clazz: string, methodName: Option<string>, methodID: int) returns (r: Option<string>)
      modifies this
      ensures methodName.Some? ==> r == methodName && MethodName(clazz, methodID) == methodName
      ensures methodName.None? ==> r == old(MethodName(clazz, methodID))
      ensures forall c, h :: (c != clazz || h != methodID || methodName.None?) ==>
        MethodName(c, h) == old(MethodName(c, h))
      ensures forall c, h :: MethodOf(c, h) == old(MethodOf(c, h))
      ensures classCache.Keys == old(classCache.Keys) + {clazz}
      ensures classNameCache == old(classNameCache)
    {
      var cc := ClassEntry(clazz);
      if methodName.Some? {
        classCache := classCache[clazz := cc.(methodNameCache := cc.methodNameCache[methodID := methodName.value])];
        return methodName;
      }
      r := if methodID in cc.methodNameCache then Some(cc.methodNameCache[methodID]) else None;
    }

    /**
     * `getMethod(clazz, method, methodID)`: a non-null method `m` is stored under
     * (`clazz`, `methodID`), replacing any earlier one, and returned; null looks
     * up what is stored. No other pair changes.
     */
    method GetMethod(clazz: string, m: Option<JMethod>, methodID: int) returns (r: Option<JMethod>)
      modifies this
      ensures m.Some? ==> r == m && MethodOf(clazz, methodID) == m
      ensures m.None? ==> r == old(MethodOf(clazz, methodID))
      ensures forall c, h :: (c != clazz || h != methodID || m.None?) ==>
        MethodOf(c, h) == old(MethodOf(c, h))
      ensures forall c, h :: MethodName(c, h) == old(MethodName(c, h))
      ensures classCache.Keys == old(classCache.Keys) + {clazz}
      ensures classNameCache == old(classNameCache)
    {
      var cc := ClassEntry(clazz);
      if m.Some? {
        classCache := classCache[clazz := cc.(methodCache := cc.methodCache[methodID := m.value])];
        return m;
      }
      r := if methodID in cc.methodCache then Some(cc.methodCache[methodID]) else None;
    }
  }
}
