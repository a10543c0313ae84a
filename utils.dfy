/**
 * Helpers of plankton/core/utils.py: the strict dictionary update behind every
 * device override, the module-name extraction used while scanning a package
 * directory, and the forwarding property an interface installs to reach its
 * device.
 */
module Utils {
  import opened Results
  import opened PyObjects

  // ------------------------------------------------------------------------
  // dict_strict_update

  /**
   * `dict_strict_update` on dictionary contents. It fails, reporting the
   * offending keys, when `update` has a key `base` lacks; otherwise every key
   * of `update` takes its new value and every other key keeps its old one.
   */
  function StrictUpdate<K, V>(base: map<K, V>, update: map<K, V>): (r: Result<map<K, V>, set<K>>)
    ensures r.Failure? <==> exists k :: k in update && k !in base
    ensures r.Failure? ==> r.error != {} && r.error <= update.Keys && r.error !! base.Keys && update.Keys <= base.Keys + r.error
    ensures r.Success? ==> r.value.Keys == base.Keys
    ensures r.Success? ==> forall k :: k in update ==> r.value[k] == update[k]
    ensures r.Success? ==> forall k :: k in base && k !in update ==> r.value[k] == base[k]
  {
    var additional := update.Keys - base.Keys;
    if additional != {} then
      Failure(additional)
    else
      assert forall k :: k in update ==> k !in additional;
      Success(base + update)
  }

  /** A successful update applied a second time changes nothing more. */
  lemma StrictUpdateIdempotent<K, V>(base: map<K, V>, update: map<K, V>)
    requires StrictUpdate(base, update).Success?
    ensures StrictUpdate(StrictUpdate(base, update).value, update) == StrictUpdate(base, update)
  {
    var once := StrictUpdate(base, update).value;
    assert once + update == once;
  }

  /** An empty update always succeeds and changes nothing. */
  lemma StrictUpdateEmpty<K, V>(base: map<K, V>)
    ensures StrictUpdate(base, map[]) == Success(base)
  {
    assert base + map[] == base;
  }

  /**
   * Two successive strict updates succeed exactly when the single update by
   * their union does, and then give the same dictionary.
   */
  lemma StrictUpdateTwice<K, V>(base: map<K, V>, first: map<K, V>, second: map<K, V>)
    ensures StrictUpdate(base, first).Success? && StrictUpdate(StrictUpdate(base, first).value, second).Success?
            <==> StrictUpdate(base, first + second).Success?
    ensures StrictUpdate(base, first + second).Success? ==>
              StrictUpdate(StrictUpdate(base, first).value, second) == StrictUpdate(base, first + second)
  {
    if StrictUpdate(base, first + second).Success? {
      assert (base + first) + second == base + (first + second);
    }
  }

  /** The elements a sequence lists. */
  function Listed<K>(s: seq<K>): (r: set<K>)
    ensures forall i :: 0 <= i < |s| ==> s[i] in r
    ensures forall k :: k in r ==> exists i :: 0 <= i < |s| && s[i] == k
  {
    set k | k in s
  }

  /**
   * A Python dictionary that is updated in place. `order` is its iteration
   * order, the order in which keys were inserted (what an OrderedDict keeps);
   * overwriting the value of an existing key does not move it.
   */
  class Dict<K(==), V> {
    var order: seq<K>
    var items: map<K, V>

    ghost predicate Valid()
      reads this
    {
      && (forall i, j :: 0 <= i < j < |order| ==> order[i] != order[j])
      && items.Keys == Listed(order)
    }

    /** A dictionary display: the keys of `items`, inserted in the order `order` gives. */
    constructor (order: seq<K>, items: map<K, V>)
      requires forall i, j :: 0 <= i < j < |order| ==> order[i] != order[j]
      requires items.Keys == Listed(order)
      ensures Valid() && this.order == order && this.items == items
    {
      this.order := order;
      this.items := items;
    }
  }

  /**
   * `dict_strict_update(base_dict, update_dict)`: checks for keys of the update
   * the base lacks before touching anything, so a rejected update leaves the
   * dictionary as it was; an accepted one overwrites in place and keeps the
   * iteration order.
   */
  method DictStrictUpdate<K(==), V>(base: Dict<K, V>, update: map<K, V>) returns (outcome: Outcome<set<K>>)
    requires base.Valid()
    modifies base
    ensures base.Valid() && base.order == old(base.order)
    ensures match StrictUpdate(old(base.items), update)
              case Failure(additional) => outcome == Fail(additional) && base.items == old(base.items)
              case Success(updated) => outcome == Pass && base.items == updated
  {
    var additional := update.Keys - base.items.Keys;
    if additional != {} {
      return Fail(additional);
    }
    assert forall k :: k in update ==> k !in additional;
    assert (base.items + update).Keys == base.items.Keys;
    base.items := base.items + update;
    outcome := Pass;
  }

  // ------------------------------------------------------------------------
  // extract_module_name

  /** `path.split('/')`: the pieces between separators, empty ones included. */
  function Split(path: string): (parts: seq<string>)
    ensures |parts| >= 1
    ensures forall i :: 0 <= i < |parts| ==> '/' !in parts[i]
  {
    if path == [] then
      [""]
    else
      var rest := Split(path[1..]);
      if path[0] == '/' then [""] + rest else [[path[0]] + rest[0]] + rest[1..]
  }

  /** `'/'.join(parts)`. */
  function Join(parts: seq<string>): string
    requires |parts| >= 1
  {
    if |parts| == 1 then parts[0] else parts[0] + "/" + Join(parts[1..])
  }

  /** Splitting a path and joining the pieces gives the path back. */
  lemma {:induction false} JoinSplit(path: string)
    ensures Join(Split(path)) == path
  {
    if path != [] {
      var rest := Split(path[1..]);
      JoinSplit(path[1..]);
      if path[0] == '/' {
        assert Split(path)[1..] == rest;
      } else {
        var parts := Split(path);
        if |rest| == 1 {
          assert parts == [[path[0]] + rest[0]];
        } else {
          assert parts[1..] == rest[1..];
          assert Join(rest) == rest[0] + "/" + Join(rest[1..]);
        }
      }
    }
  }

  /** Splitting at a separator splits the two sides independently. */
  lemma {:induction false} SplitAppend(left: string, right: string)
    ensures Split(left + "/" + right) == Split(left) + Split(right)
  {
    if left == [] {
      assert left + "/" + right == "/" + right;
      assert ("/" + right)[1..] == right;
    } else {
      var whole := left + "/" + right;
      assert whole[0] == left[0];
      assert whole[1..] == left[1..] + "/" + right;
      SplitAppend(left[1..], right);
    }
  }

  /** A piece without a separator splits into itself. */
  lemma {:induction false} SplitPlain(piece: string)
    requires '/' !in piece
    ensures Split(piece) == [piece]
  {
    if piece != [] {
      SplitPlain(piece[1..]);
      assert [piece[0]] + piece[1..] == piece;
    }
  }

  /**
   * One step of `os.path.normpath` over the pieces of a path: empty pieces and
   * '.' vanish; '..' removes the previous piece unless there is none (kept on
   * a relative path, dropped at the root of an absolute one) or that piece is
   * itself '..'.
   */
  function NormStep(comps: seq<string>, piece: string, absolute: bool): seq<string>
  {
    if piece == "" || piece == "." then
      comps
    else if piece != ".." || (!absolute && comps == []) || (comps != [] && comps[|comps| - 1] == "..") then
      comps + [piece]
    else if comps != [] then
      comps[..|comps| - 1]
    else
      comps
  }

  /** The components `os.path.normpath` keeps of the pieces of a path. */
  function Normalize(parts: seq<string>, absolute: bool): (comps: seq<string>)
    requires forall i :: 0 <= i < |parts| ==> '/' !in parts[i]
    ensures forall i :: 0 <= i < |comps| ==> comps[i] != "" && '/' !in comps[i]
  {
    if parts == [] then [] else NormStep(Normalize(parts[..|parts| - 1], absolute), parts[|parts| - 1], absolute)
  }

  /**
   * `os.path.basename(os.path.normpath(path))`: the last kept component; when
   * none is kept the normalized path is '/' (basename '') or '.'.
   */
  function NormBaseName(path: string): (name: string)
    ensures '/' !in name
  {
    var absolute := |path| > 0 && path[0] == '/';
    var comps := Normalize(Split(path), absolute);
    if comps != [] then comps[|comps| - 1] else if absolute then "" else "."
  }

  /** The position of the last '.' in `s`. */
  function LastDot(s: string): (r: Option<nat>)
    ensures r.Some? ==> r.value < |s| && s[r.value] == '.' && '.' !in s[r.value + 1..]
    ensures r.None? ==> '.' !in s
  {
    if s == [] then None
    else if s[|s| - 1] == '.' then Some(|s| - 1)
    else
      var r := LastDot(s[..|s| - 1]);
      assert r.Some? ==> s[r.value + 1..] == s[..|s| - 1][r.value + 1..] + [s[|s| - 1]];
      assert r.None? ==> s == s[..|s| - 1] + [s[|s| - 1]];
      r
  }

  /**
   * `os.path.splitext` on a base name: the extension runs from the last '.'
   * to the end, unless only dots come before that '.', in which case there is
   * no extension.
   */
  function SplitExt(name: string): (r: (string, string))
    ensures r.0 + r.1 == name
    ensures r.1 == "" || (r.1[0] == '.' && '.' !in r.1[1..])
    ensures r.1 != "" ==> exists j :: 0 <= j < |r.0| && r.0[j] != '.'
    ensures r.1 == "" ==> forall j, k :: 0 <= k < j < |name| && name[j] == '.' ==> name[k] == '.'
  {
    match LastDot(name)
    case None => (name, "")
    case Some(dot) =>
      if forall j :: 0 <= j < dot ==> name[j] == '.' then
        assert forall j :: dot < j < |name| ==> name[j] == name[dot + 1..][j - dot - 1];
        (name, "")
      else
        assert name[..dot] + name[dot..] == name;
        var j :| 0 <= j < dot && name[j] != '.';
        assert name[..dot][j] != '.';
        (name[..dot], name[dot..])
  }

  /** A name `extract_module_name` can return: non-empty, no path separator, no leading '.' or '_'. */
  predicate IsModuleName(name: string)
  {
    |name| > 0 && name[0] != '.' && name[0] != '_' && '/' !in name
  }

  /** `base_name[0]` on an empty base name, which happens for the path '/'. */
  datatype ModuleNameError = EmptyBaseName

  /** A base name not starting with '.' has the extension '.py' exactly when it ends in '.py'. */
  lemma PyExtension(name: string)
    requires |name| > 0 && name[0] != '.'
    ensures SplitExt(name).1 == ".py" <==> |name| > 3 && name[|name| - 3..] == ".py"
  {
    var (stem, ext) := SplitExt(name);
    if |name| > 3 && name[|name| - 3..] == ".py" {
      var prefix := name[..|name| - 3];
      assert name == prefix + ".py";
      assert name[|name| - 1] == 'y' && name[|name| - 2] == 'p';
      assert LastDot(name) == LastDot(name[..|name| - 1]) == LastDot(name[..|name| - 2]);
      assert name[..|name| - 2][..|name| - 3] == prefix;
      assert LastDot(name) == Some(|name| - 3);
      assert name[0] != '.' && 0 < |name| - 3;
    }
    if ext == ".py" {
      assert name == stem + ext;
      assert name[|name| - 3..] == ext;
    }
  }

  /**
   * `extract_module_name(absolute_path)`, with `os.path.isdir(absolute_path)`
   * passed in as `isDir`. A base name starting with '.' or '_' gives None
   * whatever the path is; otherwise a directory gives its base name and a file
   * gives its name without extension when the extension is exactly '.py'.
   */
  function ExtractModuleName(absolutePath: string, isDir: bool): (r: Result<Option<string>, ModuleNameError>)
    ensures r.Failure? <==> NormBaseName(absolutePath) == ""
    ensures var base := NormBaseName(absolutePath);
            base != "" && (base[0] == '.' || base[0] == '_') ==> r == Success(None)
    ensures r.Success? && r.value.Some? ==> IsModuleName(r.value.value)
    ensures var base := NormBaseName(absolutePath);
            isDir && base != "" && base[0] != '.' && base[0] != '_' ==> r == Success(Some(base))
    ensures r.Success? && r.value.Some? && isDir ==> r.value.value == NormBaseName(absolutePath)
    ensures r.Success? && r.value.Some? && !isDir ==> r.value.value + ".py" == NormBaseName(absolutePath)
    ensures var base := NormBaseName(absolutePath);
            IsModuleName(base) && !isDir ==> (r.Success? && r.value.Some? <==> |base| > 3 && base[|base| - 3..] == ".py")
  {
    var baseName := NormBaseName(absolutePath);
    if |baseName| == 0 then
      Failure(EmptyBaseName)
    else if baseName[0] == '.' || baseName[0] == '_' then
      Success(None)
    else if isDir then
      Success(Some(baseName))
    else
      var (moduleName, extension) := SplitExt(baseName);
      PyExtension(baseName);
      if extension == ".py" then
        assert baseName == moduleName + ".py";
        assert |moduleName| == |baseName| - 3;
        assert moduleName[0] == baseName[0];
        assert forall c :: c in moduleName ==> c in baseName;
        Success(Some(moduleName))
      else
        Success(None)
  }

  /**
   * A directory entry named after a module is recognised, whatever directory
   * it sits in: `<dir>/<name>.py` as a file and `<dir>/<name>` as a directory
   * both give `name`.
   */
  lemma ModuleEntryRecognised(dir: string, name: string)
    requires IsModuleName(name)
    ensures ExtractModuleName(dir + "/" + name + ".py", false) == Success(Some(name))
    ensures ExtractModuleName(dir + "/" + name, true) == Success(Some(name))
  {
    var file := name + ".py";
    assert '/' !in file by {
      assert forall i :: 0 <= i < |file| ==> file[i] == if i < |name| then name[i] else ".py"[i - |name|];
    }
    assert dir + "/" + name + ".py" == dir + "/" + file;
    EntryBaseName(dir, file);
    EntryBaseName(dir, name);
    assert file[0] == name[0];
    PyExtension(file);
    assert file[|file| - 3..] == ".py";
    var (stem, ext) := SplitExt(file);
    assert stem + ext == file;
    assert stem == file[..|file| - 3] == name;
  }

  /** The base name of `<dir>/<entry>` is the entry, when the entry is an ordinary name. */
  lemma EntryBaseName(dir: string, entry: string)
    requires entry != "" && entry[0] != '.' && '/' !in entry
    ensures NormBaseName(dir + "/" + entry) == entry
  {
    var path := dir + "/" + entry;
    SplitAppend(dir, entry);
    SplitPlain(entry);
    var parts := Split(path);
    assert parts == Split(dir) + [entry];
    assert parts[..|parts| - 1] == Split(dir);
    assert entry != "." && entry != "..";
  }

  // ------------------------------------------------------------------------
  // ForwardProperty

  /** The attribute that was looked up and not found. */
  datatype AttributeError = AttributeError(name: string)

  /** What reading a forwarding property gives: a value on an instance, the descriptor itself on the class. */
  datatype Got = Attribute(value: Value) | Descriptor(property: ForwardProperty)

  /**
   * A forwarding property installed on a class: reading or writing it on an
   * instance reads or writes the attribute `prop` of the object that the
   * instance holds in its attribute `targetMember`.
   */
  datatype ForwardProperty = ForwardProperty(targetMember: string, prop: string) {

    /** `getattr(instance, target_member)`, when it is an object. */
    function Target(instance: Obj): Result<Obj, AttributeError>
      reads instance
    {
      if targetMember !in instance.attrs then Failure(AttributeError(targetMember))
      else if instance.attrs[targetMember].Ref? then Success(instance.attrs[targetMember].obj)
      else Failure(AttributeError(prop))
    }

    /** The object a read or write through `instance` reaches. */
    function Reaches(instance: Obj): set<Obj>
      reads instance
    {
      if Target(instance).Success? then {Target(instance).value} else {}
    }

    /** `__get__`: the target's attribute on an instance, the descriptor itself without one. */
    function Get(instance: Obj?): (r: Result<Got, AttributeError>)
      reads instance, if instance != null then Reaches(instance) else {}
      ensures instance == null ==> r == Success(Descriptor(this))
      ensures instance != null && r.Success? ==>
                Target(instance).Success? && prop in Target(instance).value.attrs &&
                r.value == Attribute(Target(instance).value.attrs[prop])
      ensures instance != null && Target(instance).Failure? ==> r == Failure(Target(instance).error)
      ensures instance != null && Target(instance).Success? ==>
                (r.Success? <==> prop in Target(instance).value.attrs)
      ensures instance != null && Target(instance).Success? && prop !in Target(instance).value.attrs ==>
                r == Failure(AttributeError(prop))
    {
      if instance == null then
        Success(Descriptor(this))
      else
        match Target(instance)
        case Failure(e) => Failure(e)
        case Success(target) =>
          if prop in target.attrs then Success(Attribute(target.attrs[prop])) else Failure(AttributeError(prop))
    }

    /**
     * `__set__`: `setattr(getattr(instance, target_member), prop, value)`.
     * Only attribute `prop` of the target changes, and a read through the same
     * instance then gives `value` back (unless the write replaced the
     * reference to the target itself).
     */
    method Set(instance: Obj, value: Value) returns (outcome: Outcome<AttributeError>)
      modifies Reaches(instance)
      ensures outcome.Fail? <==> old(Target(instance)).Failure?
      ensures outcome.Fail? ==> outcome.error == old(Target(instance)).error && unchanged(instance)
      ensures outcome.Pass? ==>
                var target := old(Target(instance)).value;
                target.attrs == old(target.attrs)[prop := value]
      ensures outcome.Pass? && (old(Target(instance)).value != instance || prop != targetMember) ==>
                Get(instance) == Success(Attribute(value))
    {
      match Target(instance)
      case Failure(e) =>
        outcome := Fail(e);
      case Success(target) =>
        target.attrs := target.attrs[prop := value];
        outcome := Pass;
    }
  }
}
