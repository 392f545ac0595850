/**
 * The part of Java reflection the delegator relies on, given as a table:
 * assignability, the declared and public methods of an object's class, and
 * the outcome of invoking a method.
 */
module Reflection {
  import opened Wrappers
  import opened Messages

  /**
   * A method of an implementation class: its `toString()` text with the names of
   * the class and its superclasses removed, and the interface it returns
   * (None when its declared return type is not an interface).
   */
  datatype JMethod = JMethod(text: string, returnInterface: Option<string>)

  /** What `Method.invoke` does: return a value or throw. */
  datatype Outcome = Returned(value: Value) | Threw(exception: Value)

  datatype Runtime = Runtime(
    isAssignable: (string, Value) -> bool,           // iface.isAssignableFrom(obj.getClass())
    declaredMethods: Value -> seq<JMethod>,           // obj.getClass().getDeclaredMethods()
    publicMethods: Value -> seq<JMethod>,             // obj.getClass().getMethods()
    invoke: (JMethod, Value, seq<Value>) -> Outcome)  // method.invoke(obj, args)
}
