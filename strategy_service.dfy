/**
 * `StrategyService` (src/strategy/service.py): the registry of discovered strategy classes
 * and of loaded strategy instances, both Python dicts keyed by strategy id.
 *
 * Discovery's file listing and module import are parameters: `dirExists` says whether the
 * directory exists, `files` is what `os.listdir` returns, and `imports(m)` is what importing
 * module `m` gives — the names of its strategy classes in `inspect.getmembers` order, or an
 * exception. A loaded strategy is the value of the class it came from and the config it was
 * initialized with; whether its constructor or `initialize` raises is a parameter.
 */
module StrategyRegistry {
  import opened Common
  import opened Dicts

  datatype StrategyClass = StrategyClass(moduleName: string, className: string)

  /** A configuration value. */
  datatype Setting = Text(text: string) | Number(number: real) | Flag(flag: bool)

  type Config = map<string, Setting>

  /** A loaded strategy: its class, initialized with `config`. */
  datatype Instance = Instance(cls: StrategyClass, config: Config)

  // ---------------------------------------------------------------- discovery

  /** The filename filter of `discover_strategies`: Python files whose names do not start with "__". */
  predicate IsStrategyFile(filename: string)
  {
    EndsWith(filename, ".py") && !StartsWith(filename, "__")
  }

  /** The filename without its ".py". */
  function ModuleName(filename: string): string
    requires EndsWith(filename, ".py")
  {
    filename[..|filename| - 3]
  }

  function StrategyId(moduleName: string, className: string): string
  {
    moduleName + "." + className
  }

  /** The registry entries for the classes `names` of module `m`, in order. */
  function ClassEntries(m: string, names: seq<string>): seq<(string, StrategyClass)>
  {
    seq(|names|, i requires 0 <= i < |names| => (StrategyId(m, names[i]), StrategyClass(m, names[i])))
  }

  /** What one file contributes: nothing when it is filtered out or its import raises. */
  function FileEntries(f: string, imports: string -> Fetch<seq<string>>): seq<(string, StrategyClass)>
  {
    if !IsStrategyFile(f) then []
    else
      match imports(ModuleName(f))
      case Failed => []
      case Fetched(names) => ClassEntries(ModuleName(f), names)
  }

  /** Every class found in `files`, in listing order, with its id. */
  function Discovered(files: seq<string>, imports: string -> Fetch<seq<string>>): seq<(string, StrategyClass)>
  {
    if files == [] then [] else FileEntries(files[0], imports) + Discovered(files[1..], imports)
  }

  /** The class table after storing each entry in turn; a later entry overwrites an earlier one of the same id. */
  function Register(d: Dict<StrategyClass>, entries: seq<(string, StrategyClass)>): Dict<StrategyClass>
    decreases |entries|
  {
    if entries == [] then d else Register(Put(d, entries[0].0, entries[0].1), entries[1..])
  }

  lemma {:induction false} DiscoveredConcat(a: seq<string>, b: seq<string>, imports: string -> Fetch<seq<string>>)
    ensures Discovered(a + b, imports) == Discovered(a, imports) + Discovered(b, imports)
  {
    if a == [] {
      assert a + b == b;
    } else {
      assert (a + b)[1..] == a[1..] + b;
      DiscoveredConcat(a[1..], b, imports);
      ConcatAssoc(FileEntries(a[0], imports), Discovered(a[1..], imports), Discovered(b, imports));
    }
  }

  lemma {:induction false} RegisterConcat(d: Dict<StrategyClass>, a: seq<(string, StrategyClass)>, b: seq<(string, StrategyClass)>)
    ensures Register(d, a + b) == Register(Register(d, a), b)
    decreases |a|
  {
    if a == [] {
      assert a + b == b;
    } else {
      assert (a + b)[1..] == a[1..] + b;
      RegisterConcat(Put(d, a[0].0, a[0].1), a[1..], b);
    }
  }

  /**
   * Every discovered id is "module.Class" for a listed file that passes the filter and
   * whose module is that file's name without ".py"; and every class of every such file
   * whose import succeeds is discovered.
   */
  lemma {:induction false} DiscoveredIds(files: seq<string>, imports: string -> Fetch<seq<string>>)
    ensures forall e :: e in Discovered(files, imports) ==>
      e.0 == StrategyId(e.1.moduleName, e.1.className) &&
      exists f :: f in files && IsStrategyFile(f) && e.1.moduleName == ModuleName(f) &&
        imports(ModuleName(f)).Fetched? && e.1.className in imports(ModuleName(f)).value
    ensures forall f, name :: f in files && IsStrategyFile(f) && imports(ModuleName(f)) == Fetched(name) ==>
      forall n :: n in name ==> (StrategyId(ModuleName(f), n), StrategyClass(ModuleName(f), n)) in Discovered(files, imports)
  {
    if files != [] {
      DiscoveredIds(files[1..], imports);
      var f := files[0];
      if IsStrategyFile(f) && imports(ModuleName(f)).Fetched? {
        var names := imports(ModuleName(f)).value;
        forall n | n in names
          ensures (StrategyId(ModuleName(f), n), StrategyClass(ModuleName(f), n)) in FileEntries(f, imports)
        {
          var i :| 0 <= i < |names| && names[i] == n;
          assert ClassEntries(ModuleName(f), names)[i] == (StrategyId(ModuleName(f), n), StrategyClass(ModuleName(f), n));
        }
      }
    }
  }

  /** After registering, every registered id maps to its last entry, and no other id changes. */
  lemma {:induction false} RegisterLaws(d: Dict<StrategyClass>, entries: seq<(string, StrategyClass)>)
    ensures forall k :: k !in Keys(entries) ==> Get(Register(d, entries), k) == Get(d, k)
    ensures forall i :: 0 <= i < |entries| && (forall j :: i < j < |entries| ==> entries[j].0 != entries[i].0) ==>
      Get(Register(d, entries), entries[i].0) == Some(entries[i].1)
    ensures DistinctKeys(d) ==> DistinctKeys(Register(d, entries))
    decreases |entries|
  {
    if entries != [] {
      var d1 := Put(d, entries[0].0, entries[0].1);
      RegisterLaws(d1, entries[1..]);
      assert Keys(entries) == [entries[0].0] + Keys(entries[1..]);
      forall i | 0 <= i < |entries| && (forall j :: i < j < |entries| ==> entries[j].0 != entries[i].0)
        ensures Get(Register(d, entries), entries[i].0) == Some(entries[i].1)
      {
        if i == 0 {
          forall j | 0 <= j < |entries| - 1 ensures Keys(entries[1..])[j] != entries[0].0 {
            KeysAt(entries[1..], j);
            assert entries[1..][j] == entries[j + 1];
          }
        } else {
          assert entries[1..][i - 1] == entries[i];
          assert forall j :: i - 1 < j < |entries| - 1 ==> entries[1..][j] == entries[j + 1];
        }
      }
    }
  }

  // ---------------------------------------------------------------- loading

  /**
   * The config `load_strategy` passes to `initialize`: the given one, or `{}` for `None`.
   * An empty config is falsy and replaced by `{}`, which is the same value.
   */
  function EffectiveConfig(config: Option<Config>): Config
  {
    if config.Some? && config.value != map[] then config.value else map[]
  }

  /** `load_strategy`: the instance it returns, if any, and the new table of loaded strategies. */
  function Load(loaded: Dict<Instance>, classes: Dict<StrategyClass>, id: string, config: Option<Config>, initRaises: bool)
    : (Option<Instance>, Dict<Instance>)
  {
    match Get(classes, id)
    case None => (None, loaded)
    case Some(cls) =>
      if initRaises then (None, loaded)
      else
        var inst := Instance(cls, EffectiveConfig(config));
        (Some(inst), Put(loaded, id, inst))
  }

  /**
   * An unknown id, or an initialization that raises, returns `None` and leaves the table as
   * it was; otherwise the new instance, initialized with the given config or `{}`, is
   * returned and stored under the id, replacing any earlier one, and no other id changes.
   */
  lemma LoadLaws(loaded: Dict<Instance>, classes: Dict<StrategyClass>, id: string, config: Option<Config>, initRaises: bool)
    ensures var (r, after) := Load(loaded, classes, id, config, initRaises);
      (r.None? <==> Get(classes, id).None? || initRaises) &&
      (r.None? ==> after == loaded) &&
      (r.Some? ==>
        (r.value.cls == Get(classes, id).value && r.value.config == (if config.Some? then config.value else map[]) &&
         Get(after, id) == r)) &&
      (forall k :: k != id ==> Get(after, k) == Get(loaded, k))
  {
  }

  /** `unload_strategy`: whether the id was loaded, and the table without it. */
  function Unload(loaded: Dict<Instance>, id: string): (bool, Dict<Instance>)
    requires DistinctKeys(loaded)
  {
    if id in Keys(loaded) then (true, Remove(loaded, id)) else (false, loaded)
  }

  /** Unloading answers whether the id was loaded, and afterwards it is not; nothing else changes. */
  lemma UnloadLaws(loaded: Dict<Instance>, id: string)
    requires DistinctKeys(loaded)
    ensures var (removed, after) := Unload(loaded, id);
      (removed <==> Get(loaded, id).Some?) && Get(after, id).None? &&
      (!removed ==> after == loaded) &&
      (forall k :: k != id ==> Get(after, k) == Get(loaded, k))
  {
    GetIsMembership(loaded, id);
  }

  /** Loading a strategy that was not loaded and unloading it again restores the table, order included. */
  lemma LoadThenUnload(loaded: Dict<Instance>, classes: Dict<StrategyClass>, id: string, config: Option<Config>, initRaises: bool)
    requires DistinctKeys(loaded) && id !in Keys(loaded)
    ensures var (r, after) := Load(loaded, classes, id, config, initRaises);
      r.Some? ==> DistinctKeys(after) && Unload(after, id) == (true, loaded)
  {
    var (r, after) := Load(loaded, classes, id, config, initRaises);
    if r.Some? {
      RemoveAfterPut(loaded, id, r.value);
    }
  }

  // ---------------------------------------------------------------- the service object

  class StrategyService {
    var strategies: Dict<Instance>
    var strategyClasses: Dict<StrategyClass>

    ghost predicate Valid()
      reads this
    {
      DistinctKeys(strategies) && DistinctKeys(strategyClasses)
    }

    constructor ()
      ensures strategies == [] && strategyClasses == [] && Valid()
    {
      strategies := [];
      strategyClasses := [];
    }

    /** `discover_strategies`: the ids found, in order; each is also stored in the class table. */
    method DiscoverStrategies(dirExists: bool, files: seq<string>, imports: string -> Fetch<seq<string>>)
      returns (ids: seq<string>)
      requires Valid()
      modifies this`strategyClasses
      ensures Valid()
      ensures var found := if dirExists then Discovered(files, imports) else [];
        ids == Keys(found) && strategyClasses == Register(old(strategyClasses), found)
    {
      ids := [];
      if !dirExists {
        return;
      }
      var i := 0;
      while i < |files|
        invariant 0 <= i <= |files|
        invariant DistinctKeys(strategyClasses)
        invariant ids == Keys(Discovered(files[..i], imports))
        invariant strategyClasses == Register(old(strategyClasses), Discovered(files[..i], imports))
      {
        var f := files[i];
        ghost var before := Discovered(files[..i], imports);
        assert files[..i + 1] == files[..i] + [f];
        DiscoveredConcat(files[..i], [f], imports);
        assert Discovered([f], imports) == FileEntries(f, imports);
        KeysConcat(before, FileEntries(f, imports));
        RegisterConcat(old(strategyClasses), before, FileEntries(f, imports));
        var found := DiscoverFile(f, imports);
        ids := ids + found;
        i := i + 1;
      }
      assert files[..i] == files;
    }

    /** One file of the listing: nothing when it is filtered out or its import raises, else each of its classes is stored. */
    method DiscoverFile(f: string, imports: string -> Fetch<seq<string>>) returns (ids: seq<string>)
      requires DistinctKeys(strategyClasses)
      modifies this`strategyClasses
      ensures DistinctKeys(strategyClasses)
      ensures ids == Keys(FileEntries(f, imports)) && strategyClasses == Register(old(strategyClasses), FileEntries(f, imports))
    {
      ids := [];
      if IsStrategyFile(f) {
        var m := ModuleName(f);
        match imports(m) {
          case Failed =>
          case Fetched(names) =>
            RegisterModule(m, names);
            ids := Keys(ClassEntries(m, names));
        }
      }
    }

    /** Stores each class of module `m` under its id, in order. */
    method RegisterModule(m: string, names: seq<string>)
      requires DistinctKeys(strategyClasses)
      modifies this`strategyClasses
      ensures DistinctKeys(strategyClasses)
      ensures strategyClasses == Register(old(strategyClasses), ClassEntries(m, names))
    {
      var entries := ClassEntries(m, names);
      var j := 0;
      while j < |names|
        invariant 0 <= j <= |names|
        invariant DistinctKeys(strategyClasses)
        invariant Register(strategyClasses, entries[j..]) == Register(old(strategyClasses), entries)
      {
        assert entries[j..][0] == entries[j] && entries[j..][1..] == entries[j + 1..];
        strategyClasses := Put(strategyClasses, StrategyId(m, names[j]), StrategyClass(m, names[j]));
        j := j + 1;
      }
      assert entries[j..] == [];
    }

    /** `load_strategy`; `initRaises` says whether creating or initializing the instance raises. */
    method LoadStrategy(id: string, config: Option<Config>, initRaises: bool) returns (r: Option<Instance>)
      requires Valid()
      modifies this`strategies
      ensures Valid()
      ensures (r, strategies) == Load(old(strategies), strategyClasses, id, config, initRaises)
    {
      var cls := Get(strategyClasses, id);
      if cls.None? {
        return None;
      }
      if initRaises {
        return None;
      }
      var cfg := if config.Some? && config.value != map[] then config.value else map[];
      r := Some(Instance(cls.value, cfg));
      strategies := Put(strategies, id, r.value);
    }

    /** `unload_strategy`. */
    method UnloadStrategy(id: string) returns (removed: bool)
      requires Valid()
      modifies this`strategies
      ensures Valid()
      ensures (removed, strategies) == Unload(old(strategies), id)
    {
      if id in Keys(strategies) {
        strategies := Remove(strategies, id);
        return true;
      }
      return false;
    }

    /** `get_strategy`: the loaded instance under `id`, or `None`. */
    function GetStrategy(id: string): (r: Option<Instance>)
      reads this
      requires Valid()
      ensures r.Some? <==> id in Keys(strategies)
      ensures r.Some? ==> (id, r.value) in strategies
    {
      GetIsMembership(strategies, id);
      Get(strategies, id)
    }

    /** `get_all_strategies`: the table of loaded strategies itself; looking an id up in it is `get_strategy`. */
    function GetAllStrategies(): (all: Dict<Instance>)
      reads this
      requires Valid()
      ensures DistinctKeys(all) && forall id :: Get(all, id) == GetStrategy(id)
    {
      strategies
    }

    /** `get_available_strategies`: the registered class ids, in registration order. */
    function GetAvailableStrategies(): (ids: seq<string>)
      reads this
      ensures |ids| == |strategyClasses| && forall k :: k in ids <==> Get(strategyClasses, k).Some?
    {
      forall k ensures k in Keys(strategyClasses) <==> Get(strategyClasses, k).Some? {
        GetIsMembership(strategyClasses, k);
      }
      Keys(strategyClasses)
    }
  }
}
