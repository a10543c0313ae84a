/**
 * Property binding of plankton/interfaces/epics_interface.py: for every PV,
 * the interface must offer the PV's property, either itself or by forwarding
 * it to the device; `_create_properties` installs the forwarders on the
 * interface's class one PV at a time and stops at the first property neither
 * has.
 */
module EpicsInterface {
  import opened Results
  import opened PyObjects
  import opened Utils

  /** A process variable, through the name of the property that backs it. */
  datatype PV = PV(property: string)

  /** The class `type(self)` of an EPICS interface, the object `setattr` installs forwarders on. */
  class InterfaceType {
    /** The names the class defines or inherits, other than forwarders. */
    var members: set<string>
    /** The forwarding properties installed on the class so far. */
    var forwarders: map<string, ForwardProperty>

    constructor (members: set<string>)
      ensures this.members == members && forwarders == map[]
    {
      this.members := members;
      forwarders := map[];
    }
  }

  /** The forwarder `_create_properties` installs for `prop`: a ForwardProperty to the `_device` member. */
  function DeviceForwarder(prop: string): ForwardProperty
  {
    ForwardProperty("_device", prop)
  }

  /** The forwarders installed for the names `installed`. */
  function Forwarders(installed: seq<string>): map<string, ForwardProperty>
  {
    if installed == [] then map[]
    else
      var last := installed[|installed| - 1];
      Forwarders(installed[..|installed| - 1])[last := DeviceForwarder(last)]
  }

  /** What binding does: the properties it forwards, in order, and the error it stops with, if any. */
  datatype Binding = Binding(installed: seq<string>, error: Option<AttributeError>)

  /**
   * Binding the PVs `pvs` in order, when `present` is what `dir(self)` lists
   * and `deviceNames` what `dir(self._device)` lists. A property present on
   * the interface is skipped; one only the device has is forwarded, and from
   * then on it is present; one neither has ends the binding with an error,
   * after the forwarders installed for the PVs before it.
   */
  function Bind(present: set<string>, deviceNames: set<string>, pvs: seq<PV>): (r: Binding)
    ensures |r.installed| <= |pvs|
    ensures r.error.Some? ==> r.error.value.name !in present && r.error.value.name !in deviceNames
    decreases |pvs|
  {
    if pvs == [] then
      Binding([], None)
    else
      var prop := pvs[0].property;
      if prop in present then
        Bind(present, deviceNames, pvs[1..])
      else if prop !in deviceNames then
        Binding([], Some(AttributeError(prop)))
      else
        var rest := Bind(present + {prop}, deviceNames, pvs[1..]);
        Binding([prop] + rest.installed, rest.error)
  }

  /**
   * What a binding installs and why it stops: only properties the device has
   * and the interface lacks are forwarded, each once; an error names a PV's
   * property that neither has; and a binding that completes leaves every PV's
   * property on the interface, present before or forwarded.
   */
  lemma {:induction false} BindInstallsMissingOnly(present: set<string>, deviceNames: set<string>, pvs: seq<PV>)
    ensures var r := Bind(present, deviceNames, pvs);
            && (forall i :: 0 <= i < |r.installed| ==> r.installed[i] in deviceNames && r.installed[i] !in present)
            && (forall i, j :: 0 <= i < j < |r.installed| ==> r.installed[i] != r.installed[j])
            && (r.error.Some? ==>
                  r.error.value.name !in present && r.error.value.name !in deviceNames &&
                  exists i :: 0 <= i < |pvs| && pvs[i].property == r.error.value.name)
            && (r.error.None? ==> forall i :: 0 <= i < |pvs| ==> pvs[i].property in present || pvs[i].property in r.installed)
    decreases |pvs|
  {
    if pvs != [] {
      var prop := pvs[0].property;
      assert forall i :: 1 <= i < |pvs| ==> pvs[i] == pvs[1..][i - 1];
      if prop in present {
        BindInstallsMissingOnly(present, deviceNames, pvs[1..]);
      } else if prop in deviceNames {
        BindInstallsMissingOnly(present + {prop}, deviceNames, pvs[1..]);
      }
    }
  }

  /**
   * Binding fails exactly when some PV's property is on neither the interface
   * nor the device, and then at the first such PV: the forwarders in place
   * are those a binding of the PVs before it installs, which succeeds.
   */
  lemma {:induction false} BindStopsAtFirstMissing(present: set<string>, deviceNames: set<string>, pvs: seq<PV>, k: nat)
    requires k < |pvs| && pvs[k].property !in present && pvs[k].property !in deviceNames
    requires forall i :: 0 <= i < k ==> pvs[i].property in present || pvs[i].property in deviceNames
    ensures Bind(present, deviceNames, pvs).error == Some(AttributeError(pvs[k].property))
    ensures Bind(present, deviceNames, pvs[..k]).error.None?
    ensures Bind(present, deviceNames, pvs).installed == Bind(present, deviceNames, pvs[..k]).installed
    decreases k
  {
    if k > 0 {
      assert pvs[..k][0] == pvs[0];
      assert pvs[..k][1..] == pvs[1..][..k - 1];
      var prop := pvs[0].property;
      if prop in present {
        BindStopsAtFirstMissing(present, deviceNames, pvs[1..], k - 1);
      } else {
        BindStopsAtFirstMissing(present + {prop}, deviceNames, pvs[1..], k - 1);
      }
    }
  }

  /**
   * Once a binding completes, a PV whose property the interface lacked has a
   * forwarder, and one whose property the interface had has none, even when
   * the device has that property too.
   */
  lemma CompletedBindingForwards(present: set<string>, deviceNames: set<string>, pvs: seq<PV>, i: nat)
    requires i < |pvs| && Bind(present, deviceNames, pvs).error.None?
    ensures pvs[i].property !in present ==> pvs[i].property in Bind(present, deviceNames, pvs).installed
    ensures pvs[i].property in present ==> pvs[i].property !in Bind(present, deviceNames, pvs).installed
  {
    BindInstallsMissingOnly(present, deviceNames, pvs);
  }

  /** Binding succeeds when every PV's property is on the interface or on the device. */
  lemma {:induction false} BindSucceeds(present: set<string>, deviceNames: set<string>, pvs: seq<PV>)
    requires forall i :: 0 <= i < |pvs| ==> pvs[i].property in present || pvs[i].property in deviceNames
    ensures Bind(present, deviceNames, pvs).error.None?
    decreases |pvs|
  {
    if pvs != [] {
      var prop := pvs[0].property;
      assert forall i :: 1 <= i < |pvs| ==> pvs[i] == pvs[1..][i - 1];
      if prop in present {
        BindSucceeds(present, deviceNames, pvs[1..]);
      } else {
        BindSucceeds(present + {prop}, deviceNames, pvs[1..]);
      }
    }
  }

  /** Binding one more PV after `done`, as the loop of `_create_properties` does. */
  lemma BindStep(present: set<string>, deviceNames: set<string>, pvs: seq<PV>, i: nat)
    requires i < |pvs|
    ensures var prop := pvs[i].property;
            var tail := Bind(present, deviceNames, pvs[i..]);
            if prop in present then tail == Bind(present, deviceNames, pvs[i + 1..])
            else if prop !in deviceNames then tail == Binding([], Some(AttributeError(prop)))
            else
              var rest := Bind(present + {prop}, deviceNames, pvs[i + 1..]);
              tail == Binding([prop] + rest.installed, rest.error)
  {
    assert pvs[i..][0] == pvs[i];
    assert pvs[i..][1..] == pvs[i + 1..];
  }

  /**
   * `_create_properties(pvs)`. `instanceNames` are the attributes of the
   * interface instance itself and `deviceNames` what `dir(self._device)`
   * lists; together with the class's members and forwarders they make up
   * `dir(self)`. Forwarders go on the class, so a property forwarded for one
   * PV is present for every later one; when a PV fails, the forwarders
   * installed before it stay.
   */
  method CreateProperties(cls: InterfaceType, instanceNames: set<string>, deviceNames: set<string>, pvs: seq<PV>)
    returns (outcome: Outcome<AttributeError>)
    modifies cls
    ensures cls.members == old(cls.members)
    ensures var b := Bind(instanceNames + old(cls.members) + old(cls.forwarders).Keys, deviceNames, pvs);
            && (outcome == if b.error.Some? then Fail(b.error.value) else Pass)
            && cls.forwarders == old(cls.forwarders) + Forwarders(b.installed)
  {
    ghost var present := instanceNames + cls.members + cls.forwarders.Keys;
    ghost var done: seq<string> := [];
    var i := 0;
    while i < |pvs|
      invariant 0 <= i <= |pvs|
      invariant cls.members == old(cls.members)
      invariant cls.forwarders == old(cls.forwarders) + Forwarders(done)
      invariant instanceNames + cls.members + cls.forwarders.Keys == present + Listed(done)
      invariant Bind(present, deviceNames, pvs) == Prepend(done, Bind(present + Listed(done), deviceNames, pvs[i..]))
    {
      var prop := pvs[i].property;
      BindStep(present + Listed(done), deviceNames, pvs, i);
      if prop !in instanceNames + cls.members + cls.forwarders.Keys {
        if prop !in deviceNames {
          assert Bind(present + Listed(done), deviceNames, pvs[i..]) == Binding([], Some(AttributeError(prop)));
          assert Bind(present, deviceNames, pvs) == Binding(done, Some(AttributeError(prop))) by {
            assert done + [] == done;
          }
          return Fail(AttributeError(prop));
        }
        InstallStep(present, deviceNames, pvs, done, i);
        ListedAppend(instanceNames + cls.members + old(cls.forwarders).Keys, done, prop);
        ForwardersAppend(old(cls.forwarders), done, prop);
        cls.forwarders := cls.forwarders[prop := DeviceForwarder(prop)];
        done := done + [prop];
      }
      i := i + 1;
    }
    assert pvs[i..] == [];
    assert Bind(present, deviceNames, pvs) == Binding(done, None) by {
      assert done + [] == done;
    }
    outcome := Pass;
  }

  /** The binding `tail` after the forwarders `done`. */
  function Prepend(done: seq<string>, tail: Binding): Binding
  {
    Binding(done + tail.installed, tail.error)
  }

  /** Installing a forwarder for `pvs[i]` after `done` keeps the loop's account of the binding. */
  lemma InstallStep(present: set<string>, deviceNames: set<string>, pvs: seq<PV>, done: seq<string>, i: nat)
    requires i < |pvs|
    requires pvs[i].property !in present + Listed(done) && pvs[i].property in deviceNames
    ensures Prepend(done, Bind(present + Listed(done), deviceNames, pvs[i..]))
            == Prepend(done + [pvs[i].property], Bind(present + Listed(done + [pvs[i].property]), deviceNames, pvs[i + 1..]))
  {
    var prop := pvs[i].property;
    ListedAppend(present, done, prop);
    BindStep(present + Listed(done), deviceNames, pvs, i);
    var rest := Bind(present + Listed(done) + {prop}, deviceNames, pvs[i + 1..]);
    assert done + ([prop] + rest.installed) == (done + [prop]) + rest.installed;
  }

  lemma ListedAppend(present: set<string>, done: seq<string>, prop: string)
    ensures present + Listed(done + [prop]) == present + Listed(done) + {prop}
  {
    assert Listed(done + [prop]) == Listed(done) + {prop};
  }

  lemma ForwardersAppend(initial: map<string, ForwardProperty>, done: seq<string>, prop: string)
    ensures initial + Forwarders(done + [prop]) == (initial + Forwarders(done))[prop := DeviceForwarder(prop)]
  {
    assert (done + [prop])[..|done|] == done;
  }

  /**
   * When the device's names are its own attributes, every forwarder a
   * binding installs reads, through an interface whose `_device` holds the
   * device, the device's attribute of the same name.
   */
  lemma BoundForwarderReadsDevice(present: set<string>, instance: Obj, device: Obj, pvs: seq<PV>, i: nat)
    requires "_device" in instance.attrs && instance.attrs["_device"] == Ref(device)
    requires i < |Bind(present, device.attrs.Keys, pvs).installed|
    ensures var prop := Bind(present, device.attrs.Keys, pvs).installed[i];
            prop in device.attrs && DeviceForwarder(prop).Get(instance) == Success(Attribute(device.attrs[prop]))
  {
    BindInstallsMissingOnly(present, device.attrs.Keys, pvs);
    InstalledForwarderReadsDevice(instance, device, Bind(present, device.attrs.Keys, pvs).installed[i]);
  }

  /**
   * A forwarder for `prop`, on an interface whose `_device` attribute holds
   * `device`, reads the device's own attribute `prop`, and fails with an
   * AttributeError naming `prop` when the device has no such attribute.
   */
  lemma InstalledForwarderReadsDevice(instance: Obj, device: Obj, prop: string)
    requires "_device" in instance.attrs && instance.attrs["_device"] == Ref(device)
    ensures DeviceForwarder(prop).Target(instance) == Success(device)
    ensures prop in device.attrs ==> DeviceForwarder(prop).Get(instance) == Success(Attribute(device.attrs[prop]))
    ensures prop !in device.attrs ==> DeviceForwarder(prop).Get(instance) == Failure(AttributeError(prop))
  {
  }
}
