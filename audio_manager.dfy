/**
 * The audio instance pool (AudioManager). For every FMOD event reference it
 * keeps the list of event instances created so far; a new request reuses
 * the first instance of that list that has stopped, or creates one more.
 * Each instance also has a cached game object to attach it to, and a cached
 * table from parameter names to FMOD parameter IDs.
 *
 * FMOD and the engine are oracles (Engine): which instances report STOPPED
 * or STOPPING, the handle CreateInstance returns, the object new GameObject
 * returns, which cached objects have been destroyed, and the ID the event
 * description gives a parameter name. What the manager asks of FMOD is
 * returned as an ordered list of calls.
 */
module Audio {
  import opened Common

  /** An FMOD event reference; GUID 0 is the null reference. */
  datatype EventRef = EventRef(guid: int)

  predicate IsNull(ref: EventRef)
  {
    ref.guid == 0
  }

  /** An FMOD event instance handle; handle 0 is the default instance. */
  type Instance = int
  const DefaultInstance: Instance := 0

  /** A game object (or its transform, or a rigidbody's). */
  type ObjectId = int

  type ParamId = int

  /** A named parameter value passed with a request. */
  datatype ParamRef = ParamRef(name: string, value: real)

  datatype StopMode = AllowFadeOut | Immediate

  /** Calls into FMOD and the engine, in order. */
  datatype AudioCall =
    | AttachToObject(instance: Instance, obj: ObjectId, parent: Option<ObjectId>)   // reparent, detach, attach
    | SetParameter(instance: Instance, id: ParamId, value: real)
    | StartInstance(instance: Instance)
    | StopInstance(instance: Instance, mode: StopMode)
    | StopAllEvents(mode: StopMode)

  /** The exceptions the parameter handling can throw. */
  datatype AudioError =
    | DuplicateParameter(name: string)      // Dictionary.Add on a name already cached
    | MissingParameter(name: string)        // the cached table has no such name
    | MissingInstanceParameters             // the instance has no cached table
    | NullReference                         // a null followed transform or destroyed attach object is dereferenced

  /** The answers FMOD and the engine give during one request. */
  datatype Engine = Engine(
    stopped: set<Instance>,                 // instances in STOPPED or STOPPING state
    created: Instance,                      // what CreateInstance returns
    newObject: ObjectId,                    // what new GameObject returns
    destroyed: set<ObjectId>,               // objects Unity reports as null
    describe: string -> ParamId)            // getParameterDescriptionByName(...).id

  /** The three static dictionaries. */
  datatype AudioState = AudioState(
    pools: map<EventRef, seq<Instance>>,
    attach: map<Instance, ObjectId>,
    params: map<Instance, map<string, ParamId>>)

  /** What a play request returns: the instance, the calls made, and the exception thrown, if any. */
  datatype PlayResult = PlayResult(instance: Instance, calls: seq<AudioCall>, error: Option<AudioError>)

  ghost predicate IsPooled(pools: map<EventRef, seq<Instance>>, i: Instance)
  {
    exists r :: r in pools && i in pools[r]
  }

  /**
   * The pool invariant: the default instance is never pooled, every cached
   * attach object and parameter table belongs to a pooled instance, and no
   * two instances share an attach object.
   */
  ghost predicate ValidState(s: AudioState)
  {
    && (forall r :: r in s.pools ==> DefaultInstance !in s.pools[r])
    && (forall i :: i in s.attach ==> IsPooled(s.pools, i))
    && (forall i :: i in s.params ==> IsPooled(s.pools, i))
    && (forall i, j :: i in s.attach && j in s.attach && i != j ==> s.attach[i] != s.attach[j])
  }

  /** FMOD hands out new handles and the engine new objects. */
  ghost predicate FreshFor(s: AudioState, e: Engine)
  {
    && e.created != DefaultInstance
    && !IsPooled(s.pools, e.created)
    && e.newObject !in s.attach.Values
    && e.newObject !in e.destroyed
  }

  /** Position of the first stopped instance of a pool, if any. */
  function FirstStopped(pool: seq<Instance>, stopped: set<Instance>): (k: Option<nat>)
    ensures k.Some? ==> k.value < |pool| && pool[k.value] in stopped
    ensures k.Some? ==> forall j :: 0 <= j < k.value ==> pool[j] !in stopped
    ensures k.None? <==> forall j :: 0 <= j < |pool| ==> pool[j] !in stopped
  {
    if pool == [] then None
    else if pool[0] in stopped then Some(0)
    else match FirstStopped(pool[1..], stopped)
      case None => None
      case Some(k) => Some(k + 1)
  }

  /** The instance a request for `ref` plays. */
  function Acquired(pools: map<EventRef, seq<Instance>>, ref: EventRef, stopped: set<Instance>, created: Instance): Instance
  {
    if ref in pools && FirstStopped(pools[ref], stopped).Some? then
      pools[ref][FirstStopped(pools[ref], stopped).value]
    else
      created
  }

  /** The pools after a request for `ref`. */
  function PoolsAfter(pools: map<EventRef, seq<Instance>>, ref: EventRef, stopped: set<Instance>, created: Instance)
    : map<EventRef, seq<Instance>>
  {
    if ref !in pools then pools[ref := [created]]
    else if FirstStopped(pools[ref], stopped).Some? then pools
    else pools[ref := pools[ref] + [created]]
  }

  /** Outcome of the parameter loops on one instance's table. */
  datatype ParamResult = ParamResult(ids: map<string, ParamId>, calls: seq<AudioCall>, error: Option<AudioError>)

  /**
   * First use: each parameter's ID is looked up, added to the table (which
   * throws on a name already there) and set.
   */
  function RegisterParams(inst: Instance, ps: seq<ParamRef>, describe: string -> ParamId,
                          ids: map<string, ParamId>, calls: seq<AudioCall>): ParamResult
    decreases |ps|
  {
    if ps == [] then ParamResult(ids, calls, None)
    else
      var id := describe(ps[0].name);
      if ps[0].name in ids then ParamResult(ids, calls, Some(DuplicateParameter(ps[0].name)))
      else RegisterParams(inst, ps[1..], describe, ids[ps[0].name := id], calls + [SetParameter(inst, id, ps[0].value)])
  }

  /** Later uses: each parameter's ID comes from the cached table only (which throws on an unknown name). */
  function ReuseParams(inst: Instance, ps: seq<ParamRef>, ids: map<string, ParamId>, calls: seq<AudioCall>): ParamResult
    decreases |ps|
  {
    if ps == [] then ParamResult(ids, calls, None)
    else if ps[0].name !in ids then ParamResult(ids, calls, Some(MissingParameter(ps[0].name)))
    else ReuseParams(inst, ps[1..], ids, calls + [SetParameter(inst, ids[ps[0].name], ps[0].value)])
  }

  datatype ParamStepResult = ParamStepResult(
    table: map<Instance, map<string, ParamId>>, calls: seq<AudioCall>, error: Option<AudioError>)

  /**
   * The parameter step of a play request. A null parameter array does
   * nothing; otherwise the first request for an instance builds its table
   * and every later one reads it.
   */
  function ParamStep(table: map<Instance, map<string, ParamId>>, inst: Instance,
                     parameters: Option<seq<ParamRef>>, describe: string -> ParamId): ParamStepResult
  {
    match parameters
    case None => ParamStepResult(table, [], None)
    case Some(ps) =>
      if inst !in table then
        var o := RegisterParams(inst, ps, describe, map[], []);
        ParamStepResult(table[inst := o.ids], o.calls, o.error)
      else
        var o := ReuseParams(inst, ps, table[inst], []);
        ParamStepResult(table, o.calls, o.error)
  }

  /**
   * A whole play request. `parent` is what the attach object is parented
   * to (None: a null Transform or Rigidbody); `checksAlive` says whether the
   * attach step is skipped for a destroyed attach object (the Rigidbody
   * overload) or not (the Transform one). The Transform overload reads the
   * followed transform's position and the attach object's transform, so a
   * null transform or a destroyed attach object throws there, after the pool
   * and the attach-object cache have been updated.
   */
  function Play(s: AudioState, ref: EventRef, parent: Option<ObjectId>, checksAlive: bool,
                parameters: Option<seq<ParamRef>>, e: Engine): (AudioState, PlayResult)
  {
    if IsNull(ref) then (s, PlayResult(DefaultInstance, [], None))
    else
      var inst := Acquired(s.pools, ref, e.stopped, e.created);
      var obj := if inst in s.attach then s.attach[inst] else e.newObject;
      var pools := PoolsAfter(s.pools, ref, e.stopped, e.created);
      if !checksAlive && (parent.None? || obj in e.destroyed) then
        (AudioState(pools, s.attach[inst := obj], s.params), PlayResult(inst, [], Some(NullReference)))
      else
        var attachCalls := if obj !in e.destroyed then [AttachToObject(inst, obj, parent)] else [];
        var p := ParamStep(s.params, inst, parameters, e.describe);
        (AudioState(pools, s.attach[inst := obj], p.table),
         PlayResult(inst, attachCalls + p.calls + (if p.error.None? then [StartInstance(inst)] else []), p.error))
  }

  /** The parameter names of a request. */
  function Names(ps: seq<ParamRef>): set<string>
  {
    set i | 0 <= i < |ps| :: ps[i].name
  }

  /** All parameter names of a request differ. */
  predicate DistinctNames(ps: seq<ParamRef>)
  {
    forall i, j :: 0 <= i < j < |ps| ==> ps[i].name != ps[j].name
  }

  /**
   * First use succeeds exactly when the names are distinct (and new to the
   * table); the table then maps every name to its looked-up ID and one
   * SetParameter call is made per parameter.
   */
  lemma {:induction false} RegisterParamsSpec(inst: Instance, ps: seq<ParamRef>, describe: string -> ParamId,
                                              ids: map<string, ParamId>, calls: seq<AudioCall>)
    ensures var o := RegisterParams(inst, ps, describe, ids, calls);
      && (o.error.None? <==> DistinctNames(ps) && forall i :: 0 <= i < |ps| ==> ps[i].name !in ids)
      && (o.error.None? ==>
            && o.ids.Keys == ids.Keys + Names(ps)
            && (forall n :: n in ids ==> o.ids[n] == ids[n])
            && (forall i :: 0 <= i < |ps| ==> o.ids[ps[i].name] == describe(ps[i].name))
            && |o.calls| == |calls| + |ps|)
  {
    if ps != [] {
      var n := ps[0].name;
      var rest := ps[1..];
      var ids' := ids[n := describe(n)];
      RegisterParamsSpec(inst, rest, describe, ids', calls + [SetParameter(inst, describe(n), ps[0].value)]);
      assert forall i :: 1 <= i < |ps| ==> ps[i] == rest[i - 1];
      var o := RegisterParams(inst, ps, describe, ids, calls);
      if n !in ids && o.error.None? {
        assert Names(ps) == {n} + Names(rest);
      }
      if DistinctNames(ps) && forall i :: 0 <= i < |ps| ==> ps[i].name !in ids {
        assert n !in ids;
        assert forall i :: 0 <= i < |rest| ==> rest[i].name !in ids';
      }
    }
  }

  /**
   * A later use succeeds exactly when every name is in the cached table;
   * it then sets each parameter by its cached ID, in order.
   */
  lemma {:induction false} ReuseParamsSpec(inst: Instance, ps: seq<ParamRef>, ids: map<string, ParamId>, calls: seq<AudioCall>)
    ensures var o := ReuseParams(inst, ps, ids, calls);
      && o.ids == ids
      && (o.error.None? <==> forall i :: 0 <= i < |ps| ==> ps[i].name in ids)
      && (o.error.None? ==>
            && |o.calls| == |calls| + |ps|
            && o.calls[..|calls|] == calls
            && forall i :: 0 <= i < |ps| ==> o.calls[|calls| + i] == SetParameter(inst, ids[ps[i].name], ps[i].value))
  {
    if ps != [] && ps[0].name in ids {
      var rest := ps[1..];
      var calls' := calls + [SetParameter(inst, ids[ps[0].name], ps[0].value)];
      ReuseParamsSpec(inst, rest, ids, calls');
      var o := ReuseParams(inst, ps, ids, calls);
      assert forall i :: 1 <= i < |ps| ==> ps[i] == rest[i - 1];
      if o.error.None? {
        assert o.calls[..|calls'|] == calls';
        assert o.calls[..|calls|] == calls'[..|calls|];
        forall i | 0 <= i < |ps|
          ensures o.calls[|calls| + i] == SetParameter(inst, ids[ps[i].name], ps[i].value)
        {
          if i == 0 {
            assert o.calls[|calls|] == calls'[|calls|];
          } else {
            assert o.calls[|calls'| + (i - 1)] == SetParameter(inst, ids[rest[i - 1].name], rest[i - 1].value);
          }
        }
      }
    }
  }

  /**
   * Parameter IDs are cached by the first request that passes a parameter
   * array, even an empty one: after that, a request with a parameter name
   * the first one did not have throws.
   */
  lemma FirstArrayFixesParameters(table: map<Instance, map<string, ParamId>>, inst: Instance,
                                  first: seq<ParamRef>, later: seq<ParamRef>, describe: string -> ParamId)
    requires inst !in table
    requires exists i :: 0 <= i < |later| && forall j :: 0 <= j < |first| ==> first[j].name != later[i].name
    ensures var t := ParamStep(table, inst, Some(first), describe).table;
      ParamStep(t, inst, Some(later), describe).error.Some?
  {
    RegisterParamsSpec(inst, first, describe, map[], []);
    var o := RegisterParams(inst, first, describe, map[], []);
    var t := table[inst := o.ids];
    var i :| 0 <= i < |later| && forall j :: 0 <= j < |first| ==> first[j].name != later[i].name;
    if o.error.None? {
      assert later[i].name !in o.ids;
    } else {
      assert forall k :: 0 <= k < |first| ==> first[k].name in o.ids ==> first[k].name in o.ids.Keys;
      RegisterIdsFromNames(inst, first, describe, map[], []);
      assert later[i].name !in o.ids;
    }
    ReuseParamsSpec(inst, later, o.ids, []);
  }

  /** Whatever happens, the first-use table only holds names of the request. */
  lemma {:induction false} RegisterIdsFromNames(inst: Instance, ps: seq<ParamRef>, describe: string -> ParamId,
                                                ids: map<string, ParamId>, calls: seq<AudioCall>)
    ensures forall n :: n in RegisterParams(inst, ps, describe, ids, calls).ids ==>
      n in ids || exists i :: 0 <= i < |ps| && ps[i].name == n
  {
    if ps != [] && ps[0].name !in ids {
      var rest := ps[1..];
      var ids' := ids[ps[0].name := describe(ps[0].name)];
      var calls' := calls + [SetParameter(inst, describe(ps[0].name), ps[0].value)];
      RegisterIdsFromNames(inst, rest, describe, ids', calls');
      assert RegisterParams(inst, ps, describe, ids, calls) == RegisterParams(inst, rest, describe, ids', calls');
      forall n | n in RegisterParams(inst, ps, describe, ids, calls).ids
        ensures n in ids || exists i :: 0 <= i < |ps| && ps[i].name == n
      {
        if n !in ids && n != ps[0].name {
          var k :| 0 <= k < |rest| && rest[k].name == n;
          assert ps[k + 1].name == n;
        }
      }
    }
  }

  /**
   * Pools only grow: every reference keeps its list as a prefix of its new
   * list, and only the requested reference's list can change.
   */
  lemma PoolsOnlyGrow(pools: map<EventRef, seq<Instance>>, ref: EventRef, stopped: set<Instance>, created: Instance)
    ensures var after := PoolsAfter(pools, ref, stopped, created);
      && after.Keys == pools.Keys + {ref}
      && (forall r :: r in pools ==> pools[r] <= after[r])
      && (forall r :: r in pools && r != ref ==> after[r] == pools[r])
  {
  }

  /**
   * The request reuses the first stopped instance of the reference's pool,
   * leaving the pool as it was; with none stopped it appends the created
   * instance; an unseen reference gets a one-element pool.
   */
  lemma AcquireSpec(pools: map<EventRef, seq<Instance>>, ref: EventRef, stopped: set<Instance>, created: Instance)
    ensures ref in pools && FirstStopped(pools[ref], stopped).Some? ==>
      var k := FirstStopped(pools[ref], stopped).value;
      && Acquired(pools, ref, stopped, created) == pools[ref][k] && pools[ref][k] in stopped
      && (forall j :: 0 <= j < k ==> pools[ref][j] !in stopped)
      && PoolsAfter(pools, ref, stopped, created) == pools
    ensures ref in pools && (forall j :: 0 <= j < |pools[ref]| ==> pools[ref][j] !in stopped) ==>
      && Acquired(pools, ref, stopped, created) == created
      && PoolsAfter(pools, ref, stopped, created)[ref] == pools[ref] + [created]
    ensures ref !in pools ==>
      && Acquired(pools, ref, stopped, created) == created
      && PoolsAfter(pools, ref, stopped, created)[ref] == [created]
  {
  }

  /**
   * Each instance gets exactly one attach object: the cached one when there
   * is one, otherwise the new object; a null reference changes nothing; and
   * the instance is started exactly when no exception was thrown.
   */
  lemma PlaySpec(s: AudioState, ref: EventRef, parent: Option<ObjectId>, checksAlive: bool,
                 parameters: Option<seq<ParamRef>>, e: Engine)
    ensures var (s', r) := Play(s, ref, parent, checksAlive, parameters, e);
      && (IsNull(ref) ==> s' == s && r == PlayResult(DefaultInstance, [], None))
      && (!IsNull(ref) ==>
            && r.instance == Acquired(s.pools, ref, e.stopped, e.created)
            && s'.attach[r.instance] == (if r.instance in s.attach then s.attach[r.instance] else e.newObject)
            && (forall i :: i in s.attach && i != r.instance ==> s'.attach[i] == s.attach[i])
            && s'.pools == PoolsAfter(s.pools, ref, e.stopped, e.created)
            && (StartInstance(r.instance) in r.calls <==> r.error.None?)
            && (r.error == Some(NullReference) <==>
                  !checksAlive && (parent.None? || s'.attach[r.instance] in e.destroyed))
            && (r.error == Some(NullReference) ==> r.calls == [] && s'.params == s.params))
  {
    if !IsNull(ref) {
      var (s', r) := Play(s, ref, parent, checksAlive, parameters, e);
      var p := ParamStep(s.params, r.instance, parameters, e.describe);
      ParamCallsOnlySet(s.params, r.instance, parameters, e.describe);
      assert StartInstance(r.instance) !in p.calls;
      ParamStepErrors(s.params, r.instance, parameters, e.describe);
    }
  }

  /** The parameter step never throws a null reference. */
  lemma ParamStepErrors(table: map<Instance, map<string, ParamId>>, inst: Instance,
                        parameters: Option<seq<ParamRef>>, describe: string -> ParamId)
    ensures ParamStep(table, inst, parameters, describe).error != Some(NullReference)
  {
    if parameters.Some? {
      if inst !in table {
        RegisterErrors(inst, parameters.value, describe, map[], []);
      } else {
        ReuseErrors(inst, parameters.value, table[inst], []);
      }
    }
  }

  lemma {:induction false} RegisterErrors(inst: Instance, ps: seq<ParamRef>, describe: string -> ParamId,
                                          ids: map<string, ParamId>, calls: seq<AudioCall>)
    ensures var o := RegisterParams(inst, ps, describe, ids, calls);
      o.error.Some? ==> o.error.value.DuplicateParameter?
    decreases |ps|
  {
    if ps != [] && ps[0].name !in ids {
      RegisterErrors(inst, ps[1..], describe, ids[ps[0].name := describe(ps[0].name)],
                     calls + [SetParameter(inst, describe(ps[0].name), ps[0].value)]);
    }
  }

  lemma {:induction false} ReuseErrors(inst: Instance, ps: seq<ParamRef>, ids: map<string, ParamId>, calls: seq<AudioCall>)
    ensures var o := ReuseParams(inst, ps, ids, calls);
      o.error.Some? ==> o.error.value.MissingParameter?
    decreases |ps|
  {
    if ps != [] && ps[0].name in ids {
      ReuseErrors(inst, ps[1..], ids, calls + [SetParameter(inst, ids[ps[0].name], ps[0].value)]);
    }
  }

  /** The parameter step only sets parameters. */
  lemma ParamCallsOnlySet(table: map<Instance, map<string, ParamId>>, inst: Instance,
                          parameters: Option<seq<ParamRef>>, describe: string -> ParamId)
    ensures forall c :: c in ParamStep(table, inst, parameters, describe).calls ==> c.SetParameter?
  {
    if parameters.Some? {
      if inst !in table {
        RegisterOnlySets(inst, parameters.value, describe, map[], []);
      } else {
        ReuseOnlySets(inst, parameters.value, table[inst], []);
      }
    }
  }

  lemma {:induction false} RegisterOnlySets(inst: Instance, ps: seq<ParamRef>, describe: string -> ParamId,
                                            ids: map<string, ParamId>, calls: seq<AudioCall>)
    requires forall c :: c in calls ==> c.SetParameter?
    ensures forall c :: c in RegisterParams(inst, ps, describe, ids, calls).calls ==> c.SetParameter?
  {
    if ps != [] && ps[0].name !in ids {
      RegisterOnlySets(inst, ps[1..], describe, ids[ps[0].name := describe(ps[0].name)],
                       calls + [SetParameter(inst, describe(ps[0].name), ps[0].value)]);
    }
  }

  lemma {:induction false} ReuseOnlySets(inst: Instance, ps: seq<ParamRef>, ids: map<string, ParamId>, calls: seq<AudioCall>)
    requires forall c :: c in calls ==> c.SetParameter?
    ensures forall c :: c in ReuseParams(inst, ps, ids, calls).calls ==> c.SetParameter?
  {
    if ps != [] && ps[0].name in ids {
      ReuseOnlySets(inst, ps[1..], ids, calls + [SetParameter(inst, ids[ps[0].name], ps[0].value)]);
    }
  }

  /** A play request keeps the pool invariant, given fresh handles and objects. */
  lemma PlayPreservesValid(s: AudioState, ref: EventRef, parent: Option<ObjectId>, checksAlive: bool,
                           parameters: Option<seq<ParamRef>>, e: Engine)
    requires ValidState(s) && FreshFor(s, e)
    ensures ValidState(Play(s, ref, parent, checksAlive, parameters, e).0)
  {
    if !IsNull(ref) {
      var s' := Play(s, ref, parent, checksAlive, parameters, e).0;
      var inst := Acquired(s.pools, ref, e.stopped, e.created);
      var pools := s'.pools;
      assert ref in pools && inst in pools[ref];
      forall i | IsPooled(s.pools, i)
        ensures IsPooled(pools, i)
      {
        var r :| r in s.pools && i in s.pools[r];
        assert s.pools[r] <= pools[r];
      }
      forall r | r in pools
        ensures DefaultInstance !in pools[r]
      {
        if r in s.pools && r != ref {
          assert pools[r] == s.pools[r];
        }
      }
      forall i | i in s'.params
        ensures IsPooled(pools, i)
      {
        if i != inst {
          assert i in s.params;
        }
      }
      forall i, j | i in s'.attach && j in s'.attach && i != j
        ensures s'.attach[i] != s'.attach[j]
      {
        if i != inst && j != inst {
        } else if inst !in s.attach {
          assert e.newObject !in s.attach.Values;
        }
      }
    }
  }

  /** AudioManager: the static dictionaries of the running game. */
  class AudioManager {
    var eventInstances: map<EventRef, seq<Instance>>
    var attachObjects: map<Instance, ObjectId>
    var paramIds: map<Instance, map<string, ParamId>>

    ghost function State(): AudioState
      reads this
    {
      AudioState(eventInstances, attachObjects, paramIds)
    }

    ghost predicate Valid()
      reads this
    {
      ValidState(State())
    }

    constructor ()
      ensures Valid() && eventInstances == map[] && attachObjects == map[] && paramIds == map[]
    {
      eventInstances := map[];
      attachObjects := map[];
      paramIds := map[];
    }

    /** Awake: clears all three dictionaries. */
    method Awake()
      modifies this
      ensures Valid() && eventInstances == map[] && attachObjects == map[] && paramIds == map[]
    {
      eventInstances := map[];
      attachObjects := map[];
      paramIds := map[];
    }

    /** OnDestroy: stops every event on the master bus when it is valid, then clears the dictionaries. */
    method OnDestroy(busValid: bool) returns (calls: seq<AudioCall>)
      modifies this
      ensures Valid() && eventInstances == map[] && attachObjects == map[] && paramIds == map[]
      ensures calls == if busValid then [StopAllEvents(Immediate)] else []
    {
      calls := [];
      if busValid {
        calls := [StopAllEvents(Immediate)];
      }
      Awake();
    }

    /** The pool search: the first instance of the pool in the stopped state, if any. */
    method FindReusable(pool: seq<Instance>, stopped: set<Instance>) returns (found: bool, inst: Instance)
      ensures found <==> FirstStopped(pool, stopped).Some?
      ensures found ==> inst == pool[FirstStopped(pool, stopped).value]
    {
      found, inst := false, DefaultInstance;
      for i := 0 to |pool|
        invariant forall j :: 0 <= j < i ==> pool[j] !in stopped
      {
        if pool[i] in stopped {
          return true, pool[i];
        }
      }
    }

    /** Picks the instance for `ref`, creating and appending one when none can be reused. */
    method AcquireInstance(ref: EventRef, stopped: set<Instance>, created: Instance) returns (inst: Instance)
      modifies this`eventInstances
      ensures inst == Acquired(old(eventInstances), ref, stopped, created)
      ensures eventInstances == PoolsAfter(old(eventInstances), ref, stopped, created)
    {
      if ref in eventInstances {
        var found, reused := FindReusable(eventInstances[ref], stopped);
        if found {
          inst := reused;
        } else {
          inst := created;
          eventInstances := eventInstances[ref := eventInstances[ref] + [inst]];
        }
      } else {
        inst := created;
        eventInstances := eventInstances[ref := []];
        assert eventInstances[ref] + [inst] == [created];
        eventInstances := eventInstances[ref := eventInstances[ref] + [inst]];
      }
    }

    /** The attach object of `inst`: the cached one, or a new one that is cached. */
    method AttachObjectFor(inst: Instance, newObject: ObjectId) returns (obj: ObjectId)
      modifies this`attachObjects
      ensures obj == if inst in old(attachObjects) then old(attachObjects)[inst] else newObject
      ensures attachObjects == old(attachObjects)[inst := obj]
    {
      if inst in attachObjects {
        obj := attachObjects[inst];
      } else {
        obj := newObject;
        attachObjects := attachObjects[inst := obj];
      }
    }

    /** The parameter loops of a play request. */
    method ApplyParameters(inst: Instance, parameters: Option<seq<ParamRef>>, describe: string -> ParamId)
        returns (calls: seq<AudioCall>, error: Option<AudioError>)
      modifies this`paramIds
      ensures ParamStepResult(paramIds, calls, error) == ParamStep(old(paramIds), inst, parameters, describe)
    {
      calls, error := [], None;
      if parameters.None? {
        return;
      }
      var ps := parameters.value;
      if inst !in paramIds {
        paramIds := paramIds[inst := map[]];
        for i := 0 to |ps|
          invariant inst in paramIds && paramIds == old(paramIds)[inst := paramIds[inst]]
          invariant RegisterParams(inst, ps[i..], describe, paramIds[inst], calls) == RegisterParams(inst, ps, describe, map[], [])
        {
          assert ps[i..][1..] == ps[i + 1..];
          var id := describe(ps[i].name);
          if ps[i].name in paramIds[inst] {
            error := Some(DuplicateParameter(ps[i].name));
            return;
          }
          paramIds := paramIds[inst := paramIds[inst][ps[i].name := id]];
          calls := calls + [SetParameter(inst, id, ps[i].value)];
        }
      } else {
        var table := paramIds[inst];
        for i := 0 to |ps|
          invariant ReuseParams(inst, ps[i..], table, calls) == ReuseParams(inst, ps, table, [])
        {
          assert ps[i..][1..] == ps[i + 1..];
          if ps[i].name !in table {
            error := Some(MissingParameter(ps[i].name));
            return;
          }
          calls := calls + [SetParameter(inst, table[ps[i].name], ps[i].value)];
        }
      }
    }

    /**
     * PlaySoundAttached with a Transform to follow (None: a null Transform):
     * the instance is reused or created, its attach object is parented to the
     * followed transform, parameters are applied and the instance is
     * started. A null transform or a destroyed attach object throws once the
     * pool and the attach-object cache have been updated.
     */
    method PlaySoundAttachedToTransform(ref: EventRef, follow: Option<ObjectId>, parameters: Option<seq<ParamRef>>, e: Engine)
        returns (r: PlayResult)
      requires Valid() && FreshFor(State(), e)
      modifies this
      ensures Valid()
      ensures State() == Play(old(State()), ref, follow, false, parameters, e).0
      ensures r == Play(old(State()), ref, follow, false, parameters, e).1
    {
      PlayPreservesValid(State(), ref, follow, false, parameters, e);
      if IsNull(ref) {
        return PlayResult(DefaultInstance, [], None);
      }
      var inst := AcquireInstance(ref, e.stopped, e.created);
      var obj := AttachObjectFor(inst, e.newObject);
      if follow.None? || obj in e.destroyed {
        return PlayResult(inst, [], Some(NullReference));
      }
      var calls := [AttachToObject(inst, obj, follow)];
      var paramCalls, error := ApplyParameters(inst, parameters, e.describe);
      calls := calls + paramCalls;
      if error.None? {
        calls := calls + [StartInstance(inst)];
      }
      r := PlayResult(inst, calls, error);
    }

    /**
     * PlaySoundAttached with a Rigidbody: as above, but the attach step is
     * skipped when the attach object has been destroyed, and the object is
     * parented to the body (or to nothing when there is no body).
     */
    method PlaySoundAttachedToBody(ref: EventRef, body: Option<ObjectId>, parameters: Option<seq<ParamRef>>, e: Engine)
        returns (r: PlayResult)
      requires Valid() && FreshFor(State(), e)
      modifies this
      ensures Valid()
      ensures State() == Play(old(State()), ref, body, true, parameters, e).0
      ensures r == Play(old(State()), ref, body, true, parameters, e).1
    {
      PlayPreservesValid(State(), ref, body, true, parameters, e);
      if IsNull(ref) {
        return PlayResult(DefaultInstance, [], None);
      }
      var inst := AcquireInstance(ref, e.stopped, e.created);
      var obj := AttachObjectFor(inst, e.newObject);
      var calls := [];
      if obj !in e.destroyed {
        calls := [AttachToObject(inst, obj, body)];
      }
      var paramCalls, error := ApplyParameters(inst, parameters, e.describe);
      calls := calls + paramCalls;
      if error.None? {
        calls := calls + [StartInstance(inst)];
      }
      r := PlayResult(inst, calls, error);
    }

    /** PlaySound: the Rigidbody overload with no body. */
    method PlaySound(ref: EventRef, parameters: Option<seq<ParamRef>>, e: Engine) returns (r: PlayResult)
      requires Valid() && FreshFor(State(), e)
      modifies this
      ensures Valid()
      ensures State() == Play(old(State()), ref, None, true, parameters, e).0
      ensures r == Play(old(State()), ref, None, true, parameters, e).1
    {
      r := PlaySoundAttachedToBody(ref, None, parameters, e);
    }

    /**
     * ModifyPlayingSound: sets each parameter by the instance's cached ID;
     * throws at the first parameter when the instance has no table, or at
     * the first name the table lacks.
     */
    method ModifyPlayingSound(inst: Instance, ps: seq<ParamRef>) returns (calls: seq<AudioCall>, error: Option<AudioError>)
      ensures ps == [] ==> calls == [] && error == None
      ensures ps != [] && inst !in paramIds ==> calls == [] && error == Some(MissingInstanceParameters)
      ensures inst in paramIds ==>
        var o := ReuseParams(inst, ps, paramIds[inst], []);
        calls == o.calls && error == o.error
    {
      calls, error := [], None;
      for i := 0 to |ps|
        invariant i > 0 ==> inst in paramIds
        invariant inst in paramIds ==>
          ReuseParams(inst, ps[i..], paramIds[inst], calls) == ReuseParams(inst, ps, paramIds[inst], [])
        invariant i == 0 ==> calls == []
      {
        if inst !in paramIds {
          error := Some(MissingInstanceParameters);
          return;
        }
        assert ps[i..][1..] == ps[i + 1..];
        if ps[i].name !in paramIds[inst] {
          error := Some(MissingParameter(ps[i].name));
          return;
        }
        calls := calls + [SetParameter(inst, paramIds[inst][ps[i].name], ps[i].value)];
      }
    }

    /** StopSound: does nothing to an invalid instance; otherwise stops it, with fade-out when asked. */
    method StopSound(inst: Instance, fadeOut: bool, valid: set<Instance>) returns (calls: seq<AudioCall>)
      ensures inst !in valid ==> calls == []
      ensures inst in valid ==> calls == [StopInstance(inst, if fadeOut then AllowFadeOut else Immediate)]
    {
      if inst !in valid {
        return [];
      }
      calls := [StopInstance(inst, if fadeOut then AllowFadeOut else Immediate)];
    }
  }
}
