/**
 * `AdapterBase` of plankton/core/adapters.py: the interfaces list every
 * adapter shares through a class attribute, `add_interface`, which appends to
 * it, and the `is_adapter` predicate.
 */
module CoreAdapters {
  import opened PyObjects

  /** The base class `AdapterBase` defined in `plankton.core.adapters`. */
  const AdapterBaseClass: ClassId := ClassId("plankton.core.adapters", "AdapterBase")

  /** An interface, as far as `add_interface` looks at it: the adapter class it declares it is for. */
  datatype Interface = Interface(name: string, adapter: ClassId)

  /**
   * The list object bound to the class attribute `AdapterBase.interfaces`.
   * It is created once with the class, and `self.interfaces` on any instance
   * resolves to this same object.
   */
  class InterfaceList {
    var items: seq<Interface>

    constructor ()
      ensures items == []
    {
      items := [];
    }
  }

  /** An adapter instance: its own class `type(self)`, and the class-level interfaces list it sees. */
  class AdapterBase {
    const adapterType: ClassId
    const interfaces: InterfaceList

    constructor (adapterType: ClassId, interfaces: InterfaceList)
      ensures this.adapterType == adapterType && this.interfaces == interfaces
    {
      this.adapterType := adapterType;
      this.interfaces := interfaces;
    }

    /**
     * `add_interface`: appends the interface to the shared list when it is
     * for exactly this adapter's class, and leaves the list alone otherwise.
     */
    method AddInterface(newInterface: Interface)
      modifies interfaces
      ensures newInterface.adapter == adapterType ==> interfaces.items == old(interfaces.items) + [newInterface]
      ensures newInterface.adapter != adapterType ==> interfaces.items == old(interfaces.items)
    {
      if newInterface.adapter == adapterType {
        interfaces.items := interfaces.items + [newInterface];
      }
    }
  }

  /**
   * Two adapters sharing the class attribute: an interface added through one
   * is seen through the other, after everything that was there before.
   */
  method AddThroughOne(first: AdapterBase, second: AdapterBase, newInterface: Interface)
    requires first.interfaces == second.interfaces
    requires newInterface.adapter == first.adapterType
    modifies first.interfaces
    ensures second.interfaces.items == old(second.interfaces.items) + [newInterface]
    ensures |second.interfaces.items| == |old(second.interfaces.items)| + 1
    ensures second.interfaces.items[..|old(second.interfaces.items)|] == old(second.interfaces.items)
  {
    first.AddInterface(newInterface);
  }

  /**
   * `is_adapter(obj)`: a class derived from `AdapterBase`, defined neither in
   * `plankton.adapters` (or any module whose name begins so) nor in
   * `plankton.core.adapters`, where `AdapterBase` itself lives.
   */
  function IsAdapter(obj: PyObject): (r: bool)
    ensures obj.Type? && obj.id == AdapterBaseClass ==> !r
  {
    && obj.Type?
    && IsSubclass(obj, AdapterBaseClass)
    && !StartsWith(obj.id.moduleName, "plankton.adapters")
    && obj.id.moduleName != "plankton.core.adapters"
  }

  /**
   * A class defined in `plankton.adapters`, below it, or in any module whose
   * name begins the same way, is never an adapter, whatever its ancestry;
   * neither is a non-class. In a module whose name does not begin with 'p',
   * the adapters are exactly the classes derived from `AdapterBase`.
   */
  lemma IsAdapterExclusions(obj: PyObject, suffix: string)
    ensures !IsAdapter(NotAType)
    ensures obj.Type? && obj.id.moduleName == "plankton.adapters" + suffix ==> !IsAdapter(obj)
    ensures obj.Type? && obj.id.moduleName != "" && obj.id.moduleName[0] != 'p' ==>
              (IsAdapter(obj) <==> AdapterBaseClass in obj.mro)
  {
    if obj.Type? && obj.id.moduleName == "plankton.adapters" + suffix {
      assert obj.id.moduleName[..|"plankton.adapters"|] == "plankton.adapters";
    }
    if obj.Type? && obj.id.moduleName != "" && obj.id.moduleName[0] != 'p' {
      assert !StartsWith(obj.id.moduleName, "plankton.adapters") by {
        assert "plankton.adapters"[0] == 'p';
      }
      assert obj.id.moduleName != "plankton.core.adapters" by {
        assert "plankton.core.adapters"[0] == 'p';
      }
    }
  }

  const Object: ClassId := ClassId("builtins", "object")

  /**
   * The cases of test/test_core_adapters.py: values that are not classes,
   * classes unrelated to adapters, `AdapterBase` itself and `StreamAdapter`
   * are refused; a subclass defined by a user is recognised.
   */
  lemma IsAdapterCases()
    ensures !IsAdapter(NotAType)
    ensures !IsAdapter(Type(ClassId("builtins", "float"), [ClassId("builtins", "float"), Object]))
    ensures var c := ClassId("plankton.core.utils", "FromOptionalDependency"); !IsAdapter(Type(c, [c, Object]))
    ensures !IsAdapter(Type(AdapterBaseClass, [AdapterBaseClass, Object]))
    ensures var c := ClassId("plankton.adapters.stream", "StreamAdapter"); !IsAdapter(Type(c, [c, AdapterBaseClass, Object]))
    ensures var c := ClassId("test_core_adapters", "DummyAdapter"); IsAdapter(Type(c, [c, AdapterBaseClass, Object]))
  {
    var stream := "plankton.adapters.stream";
    assert stream[..|"plankton.adapters"|] == "plankton.adapters";
    var user := "test_core_adapters";
    assert user[0] != "plankton.adapters"[0];
  }
}
