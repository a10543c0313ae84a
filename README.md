# plankton configuration core in Dafny

This project models the configuration-time core of plankton, a library for
writing simulators of laboratory hardware devices. The core has five parts:

- **Strict dictionary update.** `dict_strict_update` rejects any update that
  names a key the base dictionary lacks, and otherwise overwrites in place.
  Every device override goes through it.
- **Linkam T95 temperature controller.** Its context record with the defaults
  `_initialize_data` sets, its six-entry state table, and its ordered table of
  fifteen guarded transitions. Both tables can be overridden strictly on
  construction.
- **Adapter recognition and selection.** The two `is_adapter` predicates, and
  `import_adapter`, which picks an adapter class for a device by protocol name.
- **`AdapterBase.add_interface`.** It appends to the interfaces list that all
  adapters share through a class attribute.
- **EPICS property binding.** `_create_properties` binds each process
  variable's (PV's) property to the interface. Where only the device has the
  property, it installs a `ForwardProperty` that reads and writes through to
  the device.

`extract_module_name` is also modelled, with `os.path.normpath`, `basename`
and `splitext` written out.

Files:

- `results.dfy`: Option, Result and Outcome.
- `pyobjects.dfy`: objects as attribute maps; classes as a module, a name and a
  method resolution order.
- `utils.dfy`: plankton/core/utils.py.
- `linkam_t95.dfy`: devices/linkam_t95/device.py.
- `adapters.dfy`: plankton/adapters/__init__.py.
- `core_adapters.dfy`: plankton/core/adapters.py.
- `epics_interface.dfy`: plankton/interfaces/epics_interface.py.

Parts of the source that update state in place are modelled as classes with
`modifies` clauses:

- the dictionary that `dict_strict_update` changes;
- the device's context;
- the shared interfaces list;
- the interface class that forwarders are installed on;
- the object a forwarder writes to.

Each such method is specified against a function over values, and the
properties are proved about that function.

The state machine engine is not part of this model. `LinkamT95.FirstEnabled`
therefore states a **modelling assumption**: out of a state, the engine takes
the first transition, in table order, whose guard holds.
`LinkamT95.DefaultTableFollowsNext` then proves that, read this way, the
default table moves each state exactly as the closed-form `LinkamT95.Next`
says.

## Model

| member | source | states |
|---|---|---|
| Utils.StrictUpdate | plankton/core/utils.py:136-142 | It fails exactly when the update has a key the base lacks. The error is the non-empty set of those keys. On success the key set is unchanged, every updated key takes the update's value, and every other key keeps its old value. |
| Utils.DictStrictUpdate | plankton/core/utils.py:125-142 | The in-place version. On failure the dictionary is unchanged, because the check comes before the update. On success the contents are those `StrictUpdate` gives. The insertion order is kept in both cases. |
| Utils.StrictUpdateIdempotent | plankton/core/utils.py:142 | Applying a successful update a second time gives the same dictionary as applying it once. |
| Utils.StrictUpdateEmpty | plankton/core/utils.py:136-142 | An empty update always succeeds and changes nothing. |
| Utils.StrictUpdateTwice | plankton/core/utils.py:136-142 | Two successive strict updates succeed exactly when one update by their union does, and then give the same dictionary. |
| Utils.Split | plankton/core/utils.py:105 | Splitting a path gives at least one piece, and no piece contains a separator. |
| Utils.JoinSplit | plankton/core/utils.py:105 | Joining the pieces of a split path with '/' gives the path back. |
| Utils.SplitAppend | plankton/core/utils.py:105 | Splitting `left/right` gives the pieces of `left` followed by the pieces of `right`. |
| Utils.Normalize | plankton/core/utils.py:105 | The components that normpath keeps are non-empty and contain no separator. |
| Utils.NormBaseName | plankton/core/utils.py:105 | The base name of the normalized path contains no separator. |
| Utils.LastDot | plankton/core/utils.py:116 | It finds the last '.' in a name, or reports that there is none. |
| Utils.SplitExt | plankton/core/utils.py:116 | Stem and extension concatenate back to the name. The extension is empty, or it is one '.' followed by characters that are not '.'. A non-empty extension leaves a stem holding a character other than '.'. An empty extension means no '.' in the name is preceded by anything but dots. |
| Utils.PyExtension | plankton/core/utils.py:116-120 | For a base name not starting with '.', the extension is '.py' exactly when the name is longer than '.py' and ends in it. |
| Utils.ExtractModuleName | plankton/core/utils.py:95-122 | It fails (the IndexError of `base_name[0]`) exactly when the base name is empty. A base name starting with '.' or '_' gives None whatever the path and the directory flag. Any name returned is a module name. A directory whose base name is non-empty and starts with neither '.' nor '_' yields that base name. A file yields the base name without '.py'. A file with an ordinary name yields a name exactly when it ends in '.py'. |
| Utils.ModuleEntryRecognised | plankton/core/utils.py:105-120 | `<dir>/<name>.py` as a file and `<dir>/<name>` as a directory both yield `name`, for any directory. |
| Utils.EntryBaseName | plankton/core/utils.py:105 | The base name of `<dir>/<entry>` is the entry, when the entry is an ordinary name. |
| Utils.ForwardProperty.Get | plankton/core/utils.py:307-319 | Without an instance it returns the descriptor itself. With an instance, a missing target member fails with its AttributeError. Otherwise the read succeeds exactly when the target has attribute `prop` and returns it, and fails with AttributeError(prop) when it does not. |
| Utils.ForwardProperty.Set | plankton/core/utils.py:321-330 | It fails exactly when the target member cannot be reached, and then nothing changes. Otherwise only attribute `prop` of the target changes. A read through the same instance then returns the written value, unless the target is the instance itself and `prop` is the target member, so the write replaced the reference. |
| LinkamT95.SimulatedLinkamT95.InitializeData | devices/linkam_t95/device.py:30-56 | Whatever the prior context, afterwards the context is exactly the defaults: all five command and mode flags false, rate 5.0, limit 0.0, pump speed 0, temperature 24.0, manual mode false, manual target speed 0. |
| LinkamT95.SimulatedLinkamT95.FromTables | devices/linkam_t95/device.py:58-62 | The device holds the given tables, starts in 'init', and its context is at the defaults. |
| LinkamT95.SimulatedLinkamT95.Create | devices/linkam_t95/device.py:58-113 | Construction fails exactly when `Configure` on the default tables fails, with the same error. A constructed device and its two tables are new objects. The device is consistent, has its context at the defaults, and holds the tables `Configure` gives. |
| LinkamT95.SimulatedLinkamT95.Build | devices/linkam_t95/device.py:64-113 | The same construction over any consistent default tables: it fails exactly when `Configure` fails, with its error, and otherwise gives a new device with new tables, at the defaults, holding what `Configure` gives. |
| LinkamT95.StateNamesDistinct | devices/linkam_t95/device.py:64-71 | The six state names are different. |
| LinkamT95.TransitionOrderDistinct | devices/linkam_t95/device.py:78-103 | The transition table lists each (source, target) key once. |
| LinkamT95.TransitionsJoinStates | devices/linkam_t95/device.py:64-103 | Every transition's source and target are states of the state table, and none is a self-loop. |
| LinkamT95.DefaultTablesWellFormed | devices/linkam_t95/device.py:64-113 | The default tables are consistent: 'init' is a state, keys are distinct and all have guards, and every transition joins two different states. |
| LinkamT95.StateOrderListsStates | devices/linkam_t95/device.py:64-71 | The state names are listed once each, and they are exactly the keys of the state table. |
| LinkamT95.Configure | devices/linkam_t95/device.py:73-107 | An override naming an unknown state fails with UnknownStates, and one naming an unknown transition fails. A failure always has such a cause. On success the key sets and the transition order are unchanged, every value is overridden or kept, and consistent tables stay consistent. |
| LinkamT95.ConfigureDefaults | devices/linkam_t95/device.py:73-107 | No overrides, or empty overrides, give the default tables back. |
| LinkamT95.StartedPicksOneDirection | devices/linkam_t95/device.py:84-86 | Out of 'started', exactly one of the heat, hold and cool guards holds, for any temperature and limit. |
| LinkamT95.HoldCommandPinsHold | devices/linkam_t95/device.py:88-101 | While a hold is commanded, hold→heat and hold→cool are disabled, and heat→hold and cool→hold are enabled. |
| LinkamT95.InitAndStoppedExits | devices/linkam_t95/device.py:79-81 | 'init' can only leave to 'stopped', guarded by serial command mode. 'stopped' can only leave to 'started', guarded by a start command. |
| LinkamT95.StopOrdering | devices/linkam_t95/device.py:83-102 | Out of 'started', no transition is listed before the one to 'stopped'. Out of 'heat', 'hold' and 'cool', the one to 'stopped' is listed last. |
| LinkamT95.FirstEnabled | devices/linkam_t95/device.py:109-113 | Modelling assumption. A transition is taken exactly when some transition out of the state is enabled, and it is the first enabled one in table order. |
| LinkamT95.FirstEnabledAt | devices/linkam_t95/device.py:109-113 | The transition taken is the one at the first enabled index. |
| LinkamT95.FirstEnabledAmong | devices/linkam_t95/device.py:78-103 | The first enabled transition can be found among a listed, increasing set of indices that covers every enabled one. |
| LinkamT95.OutOfListsSources | devices/linkam_t95/device.py:78-103 | For each state, the index list names, in table order, exactly the transitions out of it. |
| LinkamT95.FirstAmongIsNext | devices/linkam_t95/device.py:78-103 | For every state, the default guards read in table order give `Next`. |
| LinkamT95.DefaultTableFollowsNext | devices/linkam_t95/device.py:78-113 | For every state name and context, the first enabled default transition is `Next`: stop first out of 'started'; temperature transitions before stop out of 'heat', 'hold' and 'cool'. A name that is not a state has no way out. |
| LinkamT95.StopWinsInStarted | devices/linkam_t95/device.py:83-86 | Out of 'started', a commanded stop is taken whatever the temperatures. |
| LinkamT95.StopWaitsForHold | devices/linkam_t95/device.py:88-102 | Out of 'heat' and 'cool', with the target reached, a commanded stop waits: the device goes to 'hold' first. |
| Adapters.IsAdapter | plankton/adapters/__init__.py:88-92 | The base class `Adapter` itself is never an adapter. |
| Adapters.IsAdapterExclusions | plankton/adapters/__init__.py:88-92 | A non-class is never an adapter, and no class whose module begins with 'plankton.adapters' is one. In a module whose name does not begin with 'p', the adapters are exactly the classes derived from `Adapter`. |
| Adapters.ImportAdapter | plankton/adapters/__init__.py:129-157 | No adapters at all fails with NoInterfaces. A falsy protocol name (None or '') gives the first adapter. Otherwise the result is found exactly when some adapter has that protocol, and it is the first such adapter in iteration order. If none has it, the result is NoProtocol. Any adapter returned is one of those available. |
| CoreAdapters.AdapterBase.AddInterface | plankton/core/adapters.py:48-55 | The shared list gains the interface at its end exactly when the interface is for this adapter's own class. Otherwise the list is unchanged. |
| CoreAdapters.AddThroughOne | plankton/core/adapters.py:48-55 | An interface added through one adapter is seen through every adapter that shares the class attribute. The length grows by one and all earlier entries stay in order. |
| CoreAdapters.IsAdapter | plankton/core/adapters.py:87-89 | The base class `AdapterBase` itself is never an adapter. |
| CoreAdapters.IsAdapterExclusions | plankton/core/adapters.py:87-89 | A non-class is never an adapter, and no class whose module begins with 'plankton.adapters' is one. In a module whose name does not begin with 'p', the adapters are exactly the classes derived from `AdapterBase`. |
| CoreAdapters.IsAdapterCases | test/test_core_adapters.py:27-43 | Values that are not classes, `float`, `FromOptionalDependency`, `AdapterBase` itself and `StreamAdapter` are not adapters. A user subclass of `AdapterBase` is one (plankton/core/adapters.py:87-89). |
| EpicsInterface.Bind | plankton/interfaces/epics_interface.py:33-41 | It installs at most one forwarder per PV. An error names a property that is neither on the interface nor on the device. |
| EpicsInterface.BindInstallsMissingOnly | plankton/interfaces/epics_interface.py:33-41 | Only properties the device has and the interface lacks are forwarded, each once. An error names a PV's property that neither has. A completed binding leaves every PV's property on the interface. |
| EpicsInterface.BindStopsAtFirstMissing | plankton/interfaces/epics_interface.py:34-40 | Binding fails at the first PV whose property neither side has. The forwarders installed are exactly those a successful binding of the earlier PVs installs, so partial application stays in place. |
| EpicsInterface.BindSucceeds | plankton/interfaces/epics_interface.py:34-41 | Binding succeeds when every PV's property is on the interface or on the device. |
| EpicsInterface.CompletedBindingForwards | plankton/interfaces/epics_interface.py:37-41 | After a completed binding, a property the interface lacked has a forwarder. A property it already had has none, even when the device has it too. |
| EpicsInterface.CreateProperties | plankton/interfaces/epics_interface.py:33-41 | The loop raises exactly when `Bind` ends in an error, with the same error. The class gains forwarders to `_device` for exactly the properties `Bind` installs, earlier ones included when it fails, and nothing else on the class changes. |
| EpicsInterface.BoundForwarderReadsDevice | plankton/interfaces/epics_interface.py:37-41 | When the device's names are its own attributes, every forwarder a binding installs reads the device's attribute of the same name through an interface whose `_device` holds the device. |
| EpicsInterface.InstalledForwarderReadsDevice | plankton/interfaces/epics_interface.py:41 | On an interface whose `_device` holds the device, a forwarder reaches the device. It reads the device's own attribute of the same name, or fails with AttributeError naming the property when the device has no such attribute. |

## Left out

- The ForwardProperty at plankton/adapters/__init__.py:160-227 is a copy of the one in plankton/core/utils.py. `Utils.ForwardProperty` models both.
- The state machine engine, `CanProcessComposite`, the processor registered at devices/linkam_t95/device.py:116 and the simulation loop are not part of this model. The engine's reading of the ordered table is the stated assumption `LinkamT95.FirstEnabled`.
- The device's states module (heating and cooling physics) and the state handlers' behaviour are not part of this model. Handlers are opaque values.
- LinkamT95.SimulatedLinkamT95.Create: the source resets the context before the tables are checked. A failing override raises out of the constructor, so no device exists either way. The model checks first and builds the device after.
- LinkamT95.Context: temperatures, rates and limits are mathematical reals. Python floats also take NaN and the infinities; with NaN every comparison is false, so `LinkamT95.StartedPicksOneDirection` does not hold for them, and out of 'started' without a stop command `LinkamT95.Next` takes 'cool' where Python's engine takes no temperature transition at all.
- The guards read the device's context when they are called. The model passes the context to them as an argument.
- `get_available_adapters`, `get_submodules`, `get_members` and `FromOptionalDependency` use runtime reflection and dynamic import. The adapters found are an input sequence to `Adapters.ImportAdapter`, and a class is a module name, a name and a method resolution order.
- Adapters.ImportAdapter: the exception message texts are not modelled. The two errors carry the device name and the protocol name.
- `os.path.isdir` touches the file system, so it is a parameter of `Utils.ExtractModuleName`.
- Utils.NormBaseName: it models POSIX `normpath` on '/'-separated strings. Byte paths, the Windows flavour and the preserved leading '//' are not modelled; the '//' case does not change the base name.
- `ForwardProperty.__init__` copies the target's docstring, which can raise when the target member is missing at construction. Docstrings are not modelled. `ForwardMethod` is not modelled either: it only delegates calls.
- Utils.ForwardProperty.Get: attribute lookup sees only an object's own attributes. Class attributes, properties and other descriptors that `getattr` would also find are not modelled, so a read the model fails can succeed in Python.
- Utils.ForwardProperty.Set: writing a new attribute always succeeds in the model. A device whose class is frozen after `_initialize_data` (devices/linkam_t95/device.py:35-38) raises instead; the freezing mechanism is not part of this model.
- EpicsInterface.InstalledForwarderReadsDevice: the device's names `dir(self._device)` are an input to `EpicsInterface.Bind` and are tied to the device's attributes only in `EpicsInterface.BoundForwarderReadsDevice`. Names the device has through its class are not modelled, as for `Utils.ForwardProperty.Get`.
- Utils.ForwardProperty.Get: when the target member holds a non-object value, reading a property of it is treated as AttributeError(prop). Python's own attributes of built-in values are not modelled.
- EpicsInterface.CreateProperties: `dir(self)` and `dir(self._device)` are name sets given as inputs: the instance's own names, and the class's members and installed forwarders.
- `seconds_since` reads the clock. `format_doc_text` and `Adapter.documentation` handle docstrings.
- `plankton/scripts/run.py` (command line) and `docs/conf.py` (documentation build) are not modelled.
- `plankton/core/interfaces.py` holds abstract properties that only raise NotImplementedError.
- `start_server` and `handle` of adapters, and the control server, are network I/O and are not modelled.
