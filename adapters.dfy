/**
 * Adapter recognition and selection of plankton/adapters/__init__.py: the
 * `is_adapter` predicate, and `import_adapter`, which picks an adapter class
 * for a device by protocol out of the adapters found for it.
 */
module Adapters {
  import opened Results
  import opened PyObjects

  /** The base class `Adapter` defined in `plankton.adapters`. */
  const AdapterBaseClass: ClassId := ClassId("plankton.adapters", "Adapter")

  /**
   * `is_adapter(obj)`: a class derived from `Adapter` that is not defined in
   * `plankton.adapters` or below it. Anything that is not a class makes
   * `issubclass` raise TypeError, which is caught and answered with false.
   */
  function IsAdapter(obj: PyObject): (r: bool)
    ensures obj.Type? && obj.id == AdapterBaseClass ==> !r
  {
    obj.Type? && IsSubclass(obj, AdapterBaseClass) && !StartsWith(obj.id.moduleName, "plankton.adapters")
  }

  /**
   * Whatever its ancestry, a class defined in `plankton.adapters`, in a module
   * below it, or in any module whose name merely begins the same way, is never
   * an adapter; neither is a non-class. In a module whose name does not begin
   * with 'p', the adapters are exactly the classes derived from `Adapter`.
   */
  lemma IsAdapterExclusions(obj: PyObject, suffix: string)
    ensures !IsAdapter(NotAType)
    ensures obj.Type? && obj.id.moduleName == "plankton.adapters" + suffix ==> !IsAdapter(obj)
    ensures obj.Type? && obj.id.moduleName != "" && obj.id.moduleName[0] != 'p' ==>
              (IsAdapter(obj) <==> AdapterBaseClass in obj.mro)
  {
    if obj.Type? && obj.id.moduleName == "plankton.adapters" + suffix {
      assert obj.id.moduleName[..|"plankton.adapters"|] == "plankton.adapters";
    }
    if obj.Type? && obj.id.moduleName != "" && obj.id.moduleName[0] != 'p' {
      assert !StartsWith(obj.id.moduleName, "plankton.adapters") by {
        assert "plankton.adapters"[0] == 'p';
      }
    }
  }

  /** An adapter class as `import_adapter` uses it: the class and its `protocol` class attribute (None by default). */
  datatype AdapterClass = AdapterClass(id: ClassId, protocol: Option<string>)

  /** The two PlanktonException cases of `import_adapter`. */
  datatype ImportError =
    | NoInterfaces(deviceName: string)
    | NoProtocol(deviceName: string, protocolName: string)

  /** A protocol name Python treats as false: None or the empty string. */
  predicate Falsy(protocolName: Option<string>)
  {
    protocolName.None? || protocolName.value == ""
  }

  /**
   * `import_adapter(device_name, protocol_name)`, given the values of the
   * dictionary `get_available_adapters` returns, in its iteration order. No
   * adapters at all is an error; without a protocol name the first adapter is
   * taken; otherwise the first adapter whose protocol equals the name, and it
   * is an error if there is none.
   */
  method ImportAdapter(deviceName: string, protocolName: Option<string>, available: seq<AdapterClass>)
    returns (r: Result<AdapterClass, ImportError>)
    ensures available == [] ==> r == Failure(NoInterfaces(deviceName))
    ensures available != [] && Falsy(protocolName) ==> r == Success(available[0])
    ensures available != [] && !Falsy(protocolName) ==>
              (r.Success? <==> exists i :: 0 <= i < |available| && available[i].protocol == protocolName)
    ensures available != [] && !Falsy(protocolName) && r.Failure? ==>
              r.error == NoProtocol(deviceName, protocolName.value)
    ensures available != [] && !Falsy(protocolName) && r.Success? ==>
              exists i :: 0 <= i < |available| && available[i] == r.value && available[i].protocol == protocolName &&
                forall j :: 0 <= j < i ==> available[j].protocol != protocolName
    ensures r.Success? ==> r.value in available
  {
    if available == [] {
      return Failure(NoInterfaces(deviceName));
    }
    if Falsy(protocolName) {
      return Success(available[0]);
    }
    var i := 0;
    while i < |available|
      invariant 0 <= i <= |available|
      invariant forall j :: 0 <= j < i ==> available[j].protocol != protocolName
    {
      if available[i].protocol == protocolName {
        return Success(available[i]);
      }
      i := i + 1;
    }
    return Failure(NoProtocol(deviceName, protocolName.value));
  }
}
