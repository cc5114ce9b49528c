/**
 * The memoising name-to-instance registry `DbContainer`
 * (src/DbContainer.php).
 *
 * PHP's reflection is abstracted: `class_exists($name)` becomes membership
 * in a set `classes` of the names of classes that exist and can be
 * constructed with no arguments, and
 * `new $name` becomes the allocation of an `Instance` whose identity `id`
 * comes from a counter that only grows, so a freshly created instance is
 * distinct from every instance created before it.
 */
module Container {
  import opened Wrappers

  /** An object created by `new $name`. */
  datatype Instance = Instance(className: string, id: nat)

  /** The abstract state of a container: `containerArray` and the allocator of identities. */
  datatype Registry = Registry(entries: map<string, Instance>, nextId: nat)

  /** What `get` computes: the value it returns (`None` is PHP's `null`) and the new state. */
  datatype GetResult = GetResult(value: Option<Instance>, after: Registry)

  /** What `set` computes: whether `new $name` could run, and the new state. */
  datatype SetResult = SetResult(ok: bool, after: Registry)

  /** A call of the public interface. */
  datatype Op = GetOp(name: string) | SetOp(name: string)

  /**
   * The invariant every reachable state keeps: each key names an existing
   * class and holds an instance of that class, every identity was handed
   * out by the allocator, and no two keys share one instance.
   */
  predicate WellFormed(r: Registry, classes: set<string>)
  {
    && (forall k | k in r.entries ::
          k in classes && r.entries[k].className == k && r.entries[k].id < r.nextId)
    && (forall k1, k2 | k1 in r.entries && k2 in r.entries && k1 != k2 ::
          r.entries[k1].id != r.entries[k2].id)
  }

  /** `$containerArray = []` together with an allocator that has handed out nothing. */
  function EmptyRegistry(): (r: Registry)
    ensures r.entries == map[]
    ensures forall classes: set<string> :: WellFormed(r, classes)
  {
    Registry(map[], 0)
  }

  /** True when `i` was not handed out before state `r` (it is newer than everything `r` holds). */
  predicate IsFresh(r: Registry, i: Instance)
  {
    i.id >= r.nextId
  }

  /**
   * `set($name)`: `$containerArray[$name] = new $name`. When no class `name`
   * exists, PHP's `new` throws and nothing is stored; that outcome is `ok == false`.
   */
  function SetStep(r: Registry, classes: set<string>, name: string): (res: SetResult)
    ensures res.ok <==> name in classes
    ensures !res.ok ==> res.after == r
    ensures res.ok ==> res.after.entries.Keys == r.entries.Keys + {name}
    ensures res.ok ==> res.after.entries[name].className == name
    ensures res.ok ==> IsFresh(r, res.after.entries[name])
    ensures forall k | k in r.entries && k != name :: res.after.entries[k] == r.entries[k]
    ensures r.nextId <= res.after.nextId
  {
    if name in classes then
      SetResult(true, Registry(r.entries[name := Instance(name, r.nextId)], r.nextId + 1))
    else
      SetResult(false, r)
  }

  /**
   * `get($name)`: the stored entry when there is one; otherwise, when the
   * class exists, the instance `set` stores; otherwise `null`.
   */
  function GetStep(r: Registry, classes: set<string>, name: string): (res: GetResult)
    ensures res.value.Some? <==> (name in r.entries || name in classes)
    ensures res.value.Some? ==> name in res.after.entries && res.after.entries[name] == res.value.value
    ensures name in r.entries ==> res.after == r
    ensures res.value.None? ==> res.after == r
    ensures name !in r.entries && name in classes ==>
              res.after == SetStep(r, classes, name).after && IsFresh(r, res.value.value)
    ensures res.after.entries.Keys == r.entries.Keys + (if res.value.Some? then {name} else {})
    ensures forall k | k in r.entries :: res.after.entries[k] == r.entries[k]
  {
    if name !in r.entries then
      if name in classes then
        var s := SetStep(r, classes, name);
        GetResult(Some(s.after.entries[name]), s.after)
      else
        GetResult(None, r)
    else
      GetResult(Some(r.entries[name]), r)
  }

  /** One call of the public interface. */
  function Step(r: Registry, classes: set<string>, op: Op): Registry
  {
    match op
    case GetOp(name) => GetStep(r, classes, name).after
    case SetOp(name) => SetStep(r, classes, name).after
  }

  /** The state after a sequence of calls. */
  function Run(r: Registry, classes: set<string>, ops: seq<Op>): Registry
    decreases |ops|
  {
    if ops == [] then r else Run(Step(r, classes, ops[0]), classes, ops[1..])
  }

  /** The names a sequence of calls passes. */
  function Names(ops: seq<Op>): set<string>
  {
    set i | 0 <= i < |ops| :: ops[i].name
  }

  lemma SetStepKeepsWellFormed(r: Registry, classes: set<string>, name: string)
    requires WellFormed(r, classes)
    ensures WellFormed(SetStep(r, classes, name).after, classes)
  {
  }

  lemma GetStepKeepsWellFormed(r: Registry, classes: set<string>, name: string)
    requires WellFormed(r, classes)
    ensures WellFormed(GetStep(r, classes, name).after, classes)
  {
    SetStepKeepsWellFormed(r, classes, name);
  }

  /** An entry `get` finds is returned as it is and nothing changes. */
  lemma GetHitChangesNothing(r: Registry, classes: set<string>, name: string)
    requires name in r.entries
    ensures GetStep(r, classes, name) == GetResult(Some(r.entries[name]), r)
  {
  }

  /** For a name neither stored nor a class, `get` returns `null` and changes nothing. */
  lemma GetMissReturnsNull(r: Registry, classes: set<string>, name: string)
    requires name !in r.entries && name !in classes
    ensures GetStep(r, classes, name) == GetResult(None, r)
  {
  }

  /** Memoisation: a second `get` of the same name returns the identical instance and changes nothing. */
  lemma GetIsMemoised(r: Registry, classes: set<string>, name: string)
    ensures var first := GetStep(r, classes, name);
            var second := GetStep(first.after, classes, name);
            second.value == first.value && second.after == first.after
  {
  }

  /**
   * `set` discards what was stored: in a well-formed state the instance it
   * stores is a different object from the one the name held before.
   */
  lemma SetReplacesInstance(r: Registry, classes: set<string>, name: string)
    requires WellFormed(r, classes)
    requires name in r.entries && name in classes
    ensures SetStep(r, classes, name).after.entries[name] != r.entries[name]
  {
  }

  /** A `get` after a successful `set` returns the instance that `set` created. */
  lemma GetAfterSetReturnsNewInstance(r: Registry, classes: set<string>, name: string)
    requires name in classes
    ensures var s := SetStep(r, classes, name);
            GetStep(s.after, classes, name).value == Some(Instance(name, r.nextId))
  {
  }

  /** Every reachable state is well-formed: in particular every stored key names an existing class. */
  lemma {:induction false} RunKeepsWellFormed(r: Registry, classes: set<string>, ops: seq<Op>)
    requires WellFormed(r, classes)
    ensures WellFormed(Run(r, classes, ops), classes)
    decreases |ops|
  {
    if ops != [] {
      match ops[0] {
        case GetOp(name) => GetStepKeepsWellFormed(r, classes, name);
        case SetOp(name) => SetStepKeepsWellFormed(r, classes, name);
      }
      RunKeepsWellFormed(Step(r, classes, ops[0]), classes, ops[1..]);
    }
  }

  /**
   * There is no removal: the set of keys only grows, and it grows only by
   * names that some call passed.
   */
  lemma {:induction false} RunKeysGrowByNamesOnly(r: Registry, classes: set<string>, ops: seq<Op>)
    ensures r.entries.Keys <= Run(r, classes, ops).entries.Keys
    ensures Run(r, classes, ops).entries.Keys <= r.entries.Keys + Names(ops)
    decreases |ops|
  {
    if ops != [] {
      var next := Step(r, classes, ops[0]);
      RunKeysGrowByNamesOnly(next, classes, ops[1..]);
      assert Names(ops) == {ops[0].name} + Names(ops[1..]) by {
        forall n | n in Names(ops[1..]) ensures n in Names(ops) {
          var i :| 0 <= i < |ops[1..]| && ops[1..][i].name == n;
          assert ops[i + 1].name == n;
        }
      }
    }
  }

  /** A name that no call passes keeps its entry, or its absence, unchanged. */
  lemma {:induction false} RunLeavesOtherNames(r: Registry, classes: set<string>, ops: seq<Op>, name: string)
    requires name !in Names(ops)
    ensures name in Run(r, classes, ops).entries <==> name in r.entries
    ensures name in r.entries ==> Run(r, classes, ops).entries[name] == r.entries[name]
    decreases |ops|
  {
    if ops != [] {
      assert ops[0].name != name;
      assert Names(ops[1..]) <= Names(ops) by {
        forall n | n in Names(ops[1..]) ensures n in Names(ops) {
          var i :| 0 <= i < |ops[1..]| && ops[1..][i].name == n;
          assert ops[i + 1].name == n;
        }
      }
      RunLeavesOtherNames(Step(r, classes, ops[0]), classes, ops[1..], name);
    }
  }

  /**
   * Memoisation across any number of calls: once `name` is stored, calls
   * that never `set` it (any `get`, any `set` of another name) keep the
   * identical instance under it.
   */
  lemma {:induction false} RunKeepsStoredInstance(r: Registry, classes: set<string>, ops: seq<Op>, name: string)
    requires name in r.entries
    requires forall i | 0 <= i < |ops| :: ops[i] != SetOp(name)
    ensures name in Run(r, classes, ops).entries
    ensures Run(r, classes, ops).entries[name] == r.entries[name]
    decreases |ops|
  {
    if ops != [] {
      var next := Step(r, classes, ops[0]);
      assert ops[0] != SetOp(name);
      assert name in next.entries && next.entries[name] == r.entries[name];
      forall i | 0 <= i < |ops[1..]| ensures ops[1..][i] != SetOp(name) {
        assert ops[1..][i] == ops[i + 1];
      }
      RunKeepsStoredInstance(next, classes, ops[1..], name);
    }
  }

  /** The registry object: `containerArray` and, beside it, the allocator of identities. */
  class DbContainer {
    var containerArray: map<string, Instance>
    var nextId: nat
    /** The names of the classes that exist and can be constructed with no arguments. */
    const classes: set<string>

    function State(): Registry
      reads this
    {
      Registry(containerArray, nextId)
    }

    ghost predicate Valid()
      reads this
    {
      WellFormed(State(), classes)
    }

    constructor (classes: set<string>)
      ensures Valid()
      ensures this.classes == classes
      ensures containerArray == map[]
    {
      this.classes := classes;
      containerArray := map[];
      nextId := 0;
    }

    /** `get($name)`. */
    method Get(name: string) returns (r: Option<Instance>)
      requires Valid()
      modifies this
      ensures Valid()
      ensures GetResult(r, State()) == GetStep(old(State()), classes, name)
      ensures name in old(containerArray) ==> r == Some(old(containerArray)[name]) && unchanged(this)
      ensures name !in old(containerArray) && name !in classes ==> r == None && unchanged(this)
      ensures name !in old(containerArray) && name in classes ==>
                r.Some? && r.value.className == name && r.value.id == old(nextId) &&
                containerArray == old(containerArray)[name := r.value]
    {
      if name !in containerArray {
        if name in classes {
          var ok := Set(name);
          assert ok;
        } else {
          return None;
        }
      }
      return Some(containerArray[name]);
    }

    /** `set($name)`; `ok == false` stands for the error `new` raises when no class `name` exists. */
    method Set(name: string) returns (ok: bool)
      requires Valid()
      modifies this
      ensures Valid()
      ensures SetResult(ok, State()) == SetStep(old(State()), classes, name)
      ensures ok <==> name in classes
      ensures ok ==> containerArray == old(containerArray)[name := Instance(name, old(nextId))]
      ensures !ok ==> unchanged(this)
    {
      if name !in classes {
        return false;
      }
      SetStepKeepsWellFormed(State(), classes, name);
      containerArray := containerArray[name := Instance(name, nextId)];
      nextId := nextId + 1;
      ok := true;
    }
  }
}
