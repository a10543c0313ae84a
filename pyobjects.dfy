/**
 * The small part of Python's object model the modelled code relies on:
 * objects as attribute maps, and classes as seen by `issubclass`.
 */
module PyObjects {

  /** A value held in an attribute; an attribute holding another object holds a reference to it. */
  datatype Value = NoneValue | Bool(b: bool) | Int(i: int) | Real(r: real) | Str(s: string) | Ref(obj: Obj)

  /** An object, through its instance attributes (its `__dict__`). */
  class Obj {
    var attrs: map<string, Value>

    constructor (attrs: map<string, Value>)
      ensures this.attrs == attrs
    {
      this.attrs := attrs;
    }
  }

  /** A class, identified by the module that defines it (`__module__`) and its name. */
  datatype ClassId = ClassId(moduleName: string, name: string)

  /**
   * Anything a predicate over classes may be handed: a class together with its
   * method resolution order (the class itself first, then its ancestors), or
   * any other object.
   */
  datatype PyObject = NotAType | Type(id: ClassId, mro: seq<ClassId>)

  /** `issubclass(c, base)` for a class `c`. */
  predicate IsSubclass(c: PyObject, base: ClassId)
    requires c.Type?
  {
    base in c.mro
  }

  /** `s.startswith(prefix)`. */
  predicate StartsWith(s: string, prefix: string)
  {
    |prefix| <= |s| && s[..|prefix|] == prefix
  }
}
