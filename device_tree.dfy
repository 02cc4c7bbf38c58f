/**
 * The `device tree` storage command of
 * commands/storage/lmi/scripts/storage/device_cmd.py: every storage extent
 * and volume group is indexed by its id, the dependency edges are a list of
 * (parent id, child id) pairs, and `cmd_tree` walks them depth first with an
 * explicit stack and a `shown` set, yielding one row per popped item.
 *
 * The remote queries that produce the objects and the edges are not part of
 * this model: they are inputs. Dictionary iteration order is an input too.
 */
module DeviceTree {
  import opened PyValues

  type Id = string

  /** A CIM_StorageExtent or an LMI_VGStoragePool, with the properties read here. */
  datatype Obj =
    | Extent(deviceId: Id, name: string, elementName: string, numberOfBlocks: int, blockSize: int,
             primordial: bool, formatLabel: string)
    | Pool(instanceId: Id, elementName: string, totalManagedSpace: int, primordial: bool)

  /** The info tuple of `get_device_info` / `get_pool_info`; sizes are in bytes. */
  datatype Info =
    | DeviceInfo(id: Id, name: string, elementName: string, size: int, format: string)
    | PoolInfo(id: Id, elementName: string, size: int, kind: string)

  /** One yielded row: `(level,) + info`, or `(level, "*** " + id)` for a node shown before. */
  datatype Row = Row(level: nat, info: Info) | Repeat(level: nat, text: string)

  /** What a walk produced: its rows, the ids expanded so far, and the id whose lookup failed. */
  datatype Walk = Walk(rows: seq<Row>, shown: set<Id>, missing: Option<Id>)

  /** `get_obj_id`: the DeviceID of an extent, the InstanceID of anything else. */
  function ObjId(o: Obj): Id
  {
    if o.Extent? then o.deviceId else o.instanceId
  }

  /** `get_obj_info`: dispatched on the same test as `get_obj_id`, and led by that id. */
  function ObjInfo(o: Obj): (r: Info)
    ensures r.id == ObjId(o)
    ensures r.DeviceInfo? <==> o.Extent?
  {
    match o
    case Extent(deviceId, name, elementName, numberOfBlocks, blockSize, _, formatLabel) =>
      DeviceInfo(deviceId, name, elementName, numberOfBlocks * blockSize, formatLabel)
    case Pool(instanceId, elementName, totalManagedSpace, _) =>
      PoolInfo(instanceId, elementName, totalManagedSpace, "volume group (LVM)")
  }

  // ---------------------------------------------------------------- the index

  /** `devices[get_obj_id(ns, dev)] = dev` for each object in turn. */
  function Index(objs: seq<Obj>): map<Id, Obj>
  {
    if objs == [] then map[]
    else Index(objs[..|objs| - 1])[ObjId(objs[|objs| - 1]) := objs[|objs| - 1]]
  }

  /** The index holds every object's id, and nothing else. */
  lemma {:induction false} IndexKeys(objs: seq<Obj>)
    ensures forall k :: k in Index(objs) <==> exists j :: 0 <= j < |objs| && ObjId(objs[j]) == k
  {
    if objs != [] {
      IndexKeys(objs[..|objs| - 1]);
      var last := |objs| - 1;
      forall k | exists j :: 0 <= j < |objs| && ObjId(objs[j]) == k
        ensures k in Index(objs)
      {
        var j :| 0 <= j < |objs| && ObjId(objs[j]) == k;
        if j < last {
          assert objs[..last][j] == objs[j];
        }
      }
      forall k | k in Index(objs)
        ensures exists j :: 0 <= j < |objs| && ObjId(objs[j]) == k
      {
        if k != ObjId(objs[last]) {
          assert k in Index(objs[..last]);
          var j :| 0 <= j < last && ObjId(objs[..last][j]) == k;
          assert objs[j] == objs[..last][j];
        }
      }
    }
  }

  /** An id maps to the LAST object having it: later objects overwrite earlier ones. */
  lemma {:induction false} IndexLastWins(objs: seq<Obj>, j: nat)
    requires j < |objs|
    requires forall l :: j < l < |objs| ==> ObjId(objs[l]) != ObjId(objs[j])
    ensures ObjId(objs[j]) in Index(objs) && Index(objs)[ObjId(objs[j])] == objs[j]
  {
    var last := |objs| - 1;
    if j < last {
      forall l | j < l < last ensures ObjId(objs[..last][l]) != ObjId(objs[..last][j]) {
        assert objs[..last][l] == objs[l];
      }
      IndexLastWins(objs[..last], j);
      assert objs[..last][j] == objs[j];
    }
  }

  /** Every object is filed under its own id. */
  lemma {:induction false} IndexConsistent(objs: seq<Obj>)
    ensures Consistent(Index(objs))
  {
    if objs != [] {
      IndexConsistent(objs[..|objs| - 1]);
    }
  }

  predicate Consistent(devices: map<Id, Obj>)
  {
    forall k :: k in devices ==> ObjId(devices[k]) == k
  }

  /** The two loops of lines 128-133: extents first, then volume groups. */
  method BuildIndex(objs: seq<Obj>) returns (devices: map<Id, Obj>)
    ensures devices == Index(objs)
  {
    devices := map[];
    for i := 0 to |objs|
      invariant devices == Index(objs[..i])
    {
      devices := devices[ObjId(objs[i]) := objs[i]];
      assert objs[..i + 1][..i] == objs[..i];
    }
    assert objs[..|objs|] == objs;
  }

  // ----------------------------------------------------- the walk, recursively

  /** `[dep[1] for dep in deps if dep[0] == id]` */
  function Children(deps: seq<(Id, Id)>, id: Id): (r: seq<Id>)
    ensures forall c :: c in r <==> (id, c) in deps
    ensures |r| <= |deps|
  {
    if deps == [] then []
    else (if deps[0].0 == id then [deps[0].1] else []) + Children(deps[1..], id)
  }

  lemma RemoveOne(keys: set<Id>, shown: set<Id>, id: Id)
    requires id in keys && id !in shown
    ensures |keys - (shown + {id})| < |keys - shown|
  {
    assert keys - (shown + {id}) == (keys - shown) - {id};
  }

  lemma {:induction false} SubsetCard(a: set<Id>, b: set<Id>)
    requires a <= b
    ensures |a| <= |b|
  {
    if a != {} {
      var x :| x in a;
      SubsetCard(a - {x}, b - {x});
    }
  }

  lemma SubsetDiff(keys: set<Id>, shown: set<Id>, more: set<Id>)
    requires shown <= more
    ensures |keys - more| <= |keys - shown|
  {
    SubsetCard(keys - more, keys - shown);
  }

  /**
   * The depth-first pre-order walk from one id at `level`: a missing id stops
   * the walk, an id already shown gives a marked row and no children, any
   * other id gives its row and then its children, one level deeper, in
   * edge-list order.
   */
  function Visit(devices: map<Id, Obj>, deps: seq<(Id, Id)>, id: Id, level: nat, shown: set<Id>): (w: Walk)
    ensures shown <= w.shown
    decreases |devices.Keys - shown|, 0, 0
  {
    if id !in devices then Walk([], shown, Some(id))
    else if id in shown then Walk([Repeat(level, "*** " + ObjInfo(devices[id]).id)], shown, None)
    else
      RemoveOne(devices.Keys, shown, id);
      var w := VisitAll(devices, deps, Children(deps, id), level + 1, shown + {id});
      Walk([Row(level, ObjInfo(devices[id]))] + w.rows, w.shown, w.missing)
  }

  /** The walks from each of `ids` at `level`, in order, each seeing what the previous ones showed. */
  function VisitAll(devices: map<Id, Obj>, deps: seq<(Id, Id)>, ids: seq<Id>, level: nat, shown: set<Id>): (w: Walk)
    ensures shown <= w.shown
    decreases |devices.Keys - shown|, 1, |ids|
  {
    if ids == [] then Walk([], shown, None)
    else
      var v := Visit(devices, deps, ids[0], level, shown);
      if v.missing.Some? then v
      else
        SubsetDiff(devices.Keys, shown, v.shown);
        var rest := VisitAll(devices, deps, ids[1..], level, v.shown);
        Walk(v.rows + rest.rows, rest.shown, rest.missing)
  }

  // ------------------------------------------------- the walk, as a stack loop

  /** `for child in reversed(children): queue.append((child, level))`: the first child ends on top. */
  function Pushed(ids: seq<Id>, level: nat): (r: seq<(Id, nat)>)
    ensures |r| == |ids|
    ensures forall i :: 0 <= i < |ids| ==> r[i] == (ids[|ids| - 1 - i], level)
  {
    seq(|ids|, i requires 0 <= i < |ids| => (ids[|ids| - 1 - i], level))
  }

  function Prepend(row: Row, w: Walk): Walk
  {
    Walk([row] + w.rows, w.shown, w.missing)
  }

  /**
   * What the loop of lines 160-175 does with `stack` and `shown`: pop the
   * top item; a missing id raises, an id shown before yields its marked row,
   * any other id yields its row, is marked shown and has its children pushed.
   */
  function Drain(devices: map<Id, Obj>, deps: seq<(Id, Id)>, stack: seq<(Id, nat)>, shown: set<Id>): Walk
    decreases |devices.Keys - shown|, |stack|
  {
    if stack == [] then Walk([], shown, None)
    else
      var id := stack[|stack| - 1].0;
      var level := stack[|stack| - 1].1;
      var rest := stack[..|stack| - 1];
      if id !in devices then Walk([], shown, Some(id))
      else if id in shown then
        Prepend(Repeat(level, "*** " + ObjInfo(devices[id]).id), Drain(devices, deps, rest, shown))
      else
        RemoveOne(devices.Keys, shown, id);
        Prepend(Row(level, ObjInfo(devices[id])),
                Drain(devices, deps, rest + Pushed(Children(deps, id), level + 1), shown + {id}))
  }

  /** A walk `w` followed by draining what was below it on the stack. */
  function Then(devices: map<Id, Obj>, deps: seq<(Id, Id)>, w: Walk, below: seq<(Id, nat)>): Walk
  {
    if w.missing.Some? then w
    else
      var d := Drain(devices, deps, below, w.shown);
      Walk(w.rows + d.rows, d.shown, d.missing)
  }

  /** A row yielded before a walk is yielded before whatever follows it. */
  lemma ThenPrepend(devices: map<Id, Obj>, deps: seq<(Id, Id)>, row: Row, w: Walk, below: seq<(Id, nat)>)
    ensures Then(devices, deps, Prepend(row, w), below) == Prepend(row, Then(devices, deps, w, below))
  {
    if w.missing.None? {
      var d := Drain(devices, deps, below, w.shown);
      assert ([row] + w.rows) + d.rows == [row] + (w.rows + d.rows);
    }
  }

  /** Draining a stack whose top is one id walks that id first, then the rest. */
  lemma {:induction false} DrainVisit(devices: map<Id, Obj>, deps: seq<(Id, Id)>, below: seq<(Id, nat)>,
                                      id: Id, level: nat, shown: set<Id>)
    ensures Drain(devices, deps, below + [(id, level)], shown) ==
            Then(devices, deps, Visit(devices, deps, id, level, shown), below)
    decreases |devices.Keys - shown|, 0, 0
  {
    DrainTop(devices, deps, below, id, level, shown);
    if id in devices && id !in shown {
      RemoveOne(devices.Keys, shown, id);
      var children := Children(deps, id);
      var row := Row(level, ObjInfo(devices[id]));
      var w := VisitAll(devices, deps, children, level + 1, shown + {id});
      calc {
        Drain(devices, deps, below + [(id, level)], shown);
        Prepend(row, Drain(devices, deps, below + Pushed(children, level + 1), shown + {id}));
        { DrainPushed(devices, deps, below, children, level + 1, shown + {id}); }
        Prepend(row, Then(devices, deps, w, below));
        { ThenPrepend(devices, deps, row, w, below); }
        Then(devices, deps, Prepend(row, w), below);
        { assert Visit(devices, deps, id, level, shown) == Prepend(row, w); }
        Then(devices, deps, Visit(devices, deps, id, level, shown), below);
      }
    } else if id in devices {
      var d := Drain(devices, deps, below, shown);
      assert Then(devices, deps, Visit(devices, deps, id, level, shown), below) ==
             Walk([Repeat(level, "*** " + ObjInfo(devices[id]).id)] + d.rows, d.shown, d.missing);
    }
  }

  /**
   * Pushing the children in reverse and draining visits them in edge-list
   * order: the stack loop is the recursive pre-order walk.
   */
  lemma {:induction false} DrainPushed(devices: map<Id, Obj>, deps: seq<(Id, Id)>, below: seq<(Id, nat)>,
                                       ids: seq<Id>, level: nat, shown: set<Id>)
    ensures Drain(devices, deps, below + Pushed(ids, level), shown) ==
            Then(devices, deps, VisitAll(devices, deps, ids, level, shown), below)
    decreases |devices.Keys - shown|, 1, |ids|
  {
    if ids == [] {
      assert below + Pushed(ids, level) == below;
    } else {
      var above := below + Pushed(ids[1..], level);
      assert below + Pushed(ids, level) == above + [(ids[0], level)];
      DrainVisit(devices, deps, above, ids[0], level, shown);
      var v := Visit(devices, deps, ids[0], level, shown);
      if v.missing.None? {
        SubsetDiff(devices.Keys, shown, v.shown);
        DrainPushed(devices, deps, below, ids[1..], level, v.shown);
        var rest := VisitAll(devices, deps, ids[1..], level, v.shown);
        if rest.missing.None? {
          var d := Drain(devices, deps, below, rest.shown);
          assert v.rows + (rest.rows + d.rows) == (v.rows + rest.rows) + d.rows;
        }
      }
    }
  }

  /** Draining a stack takes one step for the item on top of `rest`. */
  lemma DrainTop(devices: map<Id, Obj>, deps: seq<(Id, Id)>, rest: seq<(Id, nat)>, id: Id, level: nat, shown: set<Id>)
    ensures id !in devices ==> Drain(devices, deps, rest + [(id, level)], shown) == Walk([], shown, Some(id))
    ensures id in devices && id in shown ==>
              Drain(devices, deps, rest + [(id, level)], shown) ==
              Prepend(Repeat(level, "*** " + ObjInfo(devices[id]).id), Drain(devices, deps, rest, shown))
    ensures id in devices && id !in shown ==>
              Drain(devices, deps, rest + [(id, level)], shown) ==
              Prepend(Row(level, ObjInfo(devices[id])),
                      Drain(devices, deps, rest + Pushed(Children(deps, id), level + 1), shown + {id}))
  {
    assert (rest + [(id, level)])[..|rest|] == rest;
  }

  /** `for child in reversed(children): queue.append((child, level))` */
  method PushChildren(queue0: seq<(Id, nat)>, children: seq<Id>, level: nat) returns (queue: seq<(Id, nat)>)
    ensures queue == queue0 + Pushed(children, level)
  {
    queue := queue0;
    for k := 0 to |children|
      invariant queue == queue0 + Pushed(children[|children| - k..], level)
    {
      queue := queue + [(children[|children| - 1 - k], level)];
      assert children[|children| - (k + 1)..] == [children[|children| - 1 - k]] + children[|children| - k..];
    }
    assert children[|children| - |children|..] == children;
  }

  /**
   * One pass of the loop of lines 160-175 on an id that is indexed: the row
   * it yields, and the stack and the shown set it leaves.
   */
  method WalkStep(devices: map<Id, Obj>, deps: seq<(Id, Id)>, queue: seq<(Id, nat)>, shown: set<Id>)
    returns (row: Row, queue': seq<(Id, nat)>, shown': set<Id>)
    requires queue != [] && queue[|queue| - 1].0 in devices
    ensures Drain(devices, deps, queue, shown) == Prepend(row, Drain(devices, deps, queue', shown'))
    ensures |devices.Keys - shown'| < |devices.Keys - shown| || (shown' == shown && |queue'| < |queue|)
  {
    var id := queue[|queue| - 1].0;
    var level := queue[|queue| - 1].1;
    var rest := queue[..|queue| - 1];
    var info := ObjInfo(devices[id]);
    if id in shown {
      row := Repeat(level, "*** " + info.id);
      queue', shown' := rest, shown;
      DrainPop(devices, deps, queue, shown);
    } else {
      row := Row(level, info);
      shown' := shown + {id};
      queue' := PushChildren(rest, Children(deps, id), level + 1);
      DrainPop(devices, deps, queue, shown);
    }
  }

  /** Draining a stack pops its top item first. */
  lemma DrainPop(devices: map<Id, Obj>, deps: seq<(Id, Id)>, queue: seq<(Id, nat)>, shown: set<Id>)
    requires queue != [] && queue[|queue| - 1].0 in devices
    ensures var id := queue[|queue| - 1].0;
            var level := queue[|queue| - 1].1;
            var rest := queue[..|queue| - 1];
            (id in shown ==>
               Drain(devices, deps, queue, shown) == Prepend(Repeat(level, "*** " + ObjInfo(devices[id]).id), Drain(devices, deps, rest, shown))) &&
            (id !in shown ==>
               |devices.Keys - (shown + {id})| < |devices.Keys - shown| &&
               Drain(devices, deps, queue, shown) ==
               Prepend(Row(level, ObjInfo(devices[id])), Drain(devices, deps, rest + Pushed(Children(deps, id), level + 1), shown + {id})))
  {
    var id := queue[|queue| - 1].0;
    if id !in shown {
      RemoveOne(devices.Keys, shown, id);
    }
  }

  /**
   * The `while queue` loop of `cmd_tree`: the rows it yields, and the id
   * whose lookup raised KeyError, if any (the rows before it are yielded).
   */
  method WalkQueue(devices: map<Id, Obj>, deps: seq<(Id, Id)>, queue0: seq<(Id, nat)>)
    returns (rows: seq<Row>, missing: Option<Id>)
    ensures rows == Drain(devices, deps, queue0, {}).rows
    ensures missing == Drain(devices, deps, queue0, {}).missing
  {
    var queue := queue0;
    var shown: set<Id> := {};
    rows := [];
    while queue != []
      invariant rows + Drain(devices, deps, queue, shown).rows == Drain(devices, deps, queue0, {}).rows
      invariant Drain(devices, deps, queue, shown).missing == Drain(devices, deps, queue0, {}).missing
      decreases |devices.Keys - shown|, |queue|
    {
      var id := queue[|queue| - 1].0;
      var level := queue[|queue| - 1].1;
      if id !in devices {
        DrainTop(devices, deps, queue[..|queue| - 1], id, level, shown);
        assert queue == queue[..|queue| - 1] + [(id, level)];
        assert rows + [] == rows;
        return rows, Some(id);
      }
      ghost var rows0, queue1, shown1 := rows, queue, shown;
      var row;
      row, queue, shown := WalkStep(devices, deps, queue, shown);
      rows := rows + [row];
      assert rows + Drain(devices, deps, queue, shown).rows == rows0 + Drain(devices, deps, queue1, shown1).rows;
    }
    missing := None;
  }

  // ------------------------------------------------------------ the command

  /** The primordial ids, in dictionary iteration order `order`. */
  function Primordials(devices: map<Id, Obj>, order: seq<Id>): (r: seq<Id>)
    requires forall id :: id in order ==> id in devices
    ensures forall id :: id in r <==> id in order && devices[id].primordial
  {
    if order == [] then []
    else
      var last := order[|order| - 1];
      assert forall id :: id in order <==> id in order[..|order| - 1] || id == last;
      Primordials(devices, order[..|order| - 1]) + (if devices[last].primordial then [last] else [])
  }

  function Reverse(ids: seq<Id>): (r: seq<Id>)
    ensures |r| == |ids|
    ensures forall i :: 0 <= i < |ids| ==> r[i] == ids[|ids| - 1 - i]
  {
    seq(|ids|, i requires 0 <= i < |ids| => ids[|ids| - 1 - i])
  }

  /**
   * The ids the walk starts from, in the order they are popped: the given
   * device alone, or else every primordial device, popped last-appended first.
   */
  function StartIds(devices: map<Id, Obj>, device: Option<Obj>, order: seq<Id>): seq<Id>
    requires forall id :: id in order ==> id in devices
  {
    if device.Some? then [ObjId(device.value)] else Reverse(Primordials(devices, order))
  }

  /**
   * `cmd_tree`: index the extents and then the volume groups by id, seed the
   * stack with the given device or with every primordial device at level 0,
   * and run the loop. `order` is the iteration order of the index.
   * `device` is taken as a storage object already resolved; the `<device>`
   * option string the command line delivers is not resolved here.
   */
  method CmdTree(extents: seq<Obj>, pools: seq<Obj>, deps: seq<(Id, Id)>, device: Option<Obj>, order: seq<Id>)
    returns (rows: seq<Row>, missing: Option<Id>)
    requires forall id :: id in order <==> id in Index(extents + pools)
    ensures var devices := Index(extents + pools);
            var w := VisitAll(devices, deps, StartIds(devices, device, order), 0, {});
            rows == w.rows && missing == w.missing
  {
    var devices := BuildIndex(extents + pools);
    var queue: seq<(Id, nat)>;
    if device.Some? {
      queue := [(ObjId(device.value), 0)];
    } else {
      queue := PrimordialQueue(devices, order);
    }
    ghost var start := StartIds(devices, device, order);
    assert queue == [] + Pushed(start, 0);
    DrainPushed(devices, deps, [], start, 0, {});
    rows, missing := WalkQueue(devices, deps, queue);
  }

  /** Lines 155-157: every primordial device is appended at level 0, in iteration order. */
  method PrimordialQueue(devices: map<Id, Obj>, order: seq<Id>) returns (queue: seq<(Id, nat)>)
    requires forall id :: id in order ==> id in devices
    ensures queue == Pushed(Reverse(Primordials(devices, order)), 0)
  {
    queue := [];
    for i := 0 to |order|
      invariant queue == Pushed(Reverse(Primordials(devices, order[..i])), 0)
    {
      var id := order[i];
      assert order[..i + 1][..i] == order[..i] && order[..i + 1][i] == id;
      if devices[id].primordial {
        PushedReverseSnoc(Primordials(devices, order[..i]), id, 0);
        queue := queue + [(id, 0)];
      } else {
        assert Primordials(devices, order[..i]) + [] == Primordials(devices, order[..i]);
      }
    }
    assert order[..|order|] == order;
  }

  /** Pushing an id reversed onto the front of the sequence appends it to the stack. */
  lemma PushedReverseSnoc(ids: seq<Id>, id: Id, level: nat)
    ensures Pushed(Reverse(ids + [id]), level) == Pushed(Reverse(ids), level) + [(id, level)]
  {
    var l := Pushed(Reverse(ids + [id]), level);
    var r := Pushed(Reverse(ids), level) + [(id, level)];
    forall i | 0 <= i < |l| ensures l[i] == r[i] {
      if i < |ids| {
        assert Reverse(ids + [id])[|ids| - i] == (ids + [id])[i];
        assert Reverse(ids)[|ids| - 1 - i] == ids[i];
      }
    }
  }

  // ---------------------------------------------------------- its properties

  /** The rows of a walk from `level`: the first at `level`, none above it, each at most one deeper than the one before. */
  predicate Nested(rows: seq<Row>, level: nat)
  {
    (rows != [] ==> rows[0].level == level) &&
    (forall k :: 0 <= k < |rows| ==> rows[k].level >= level) &&
    (forall k :: 0 <= k < |rows| - 1 ==> rows[k + 1].level <= rows[k].level + 1)
  }

  lemma NestedAppend(a: seq<Row>, b: seq<Row>, level: nat)
    requires Nested(a, level) && Nested(b, level)
    ensures Nested(a + b, level)
  {
    if a != [] && b != [] {
      assert (a + b)[|a|] == b[0];
      assert (a + b)[|a| - 1] == a[|a| - 1];
    }
  }

  /** A row followed by the rows of a walk one level deeper. */
  lemma NestedCons(row: Row, rows: seq<Row>, level: nat)
    requires row.level == level && Nested(rows, level + 1)
    ensures Nested([row] + rows, level)
  {
    var all := [row] + rows;
    forall k | 0 <= k < |all| ensures all[k].level >= level {
      if k > 0 { assert all[k] == rows[k - 1]; }
    }
    forall k | 0 <= k < |all| - 1 ensures all[k + 1].level <= all[k].level + 1 {
      if k > 0 { assert all[k] == rows[k - 1] && all[k + 1] == rows[k]; }
    }
  }

  /** A walk from `level` writes its first row at `level`, none above it, and each row at most one level deeper than the one before. */
  lemma {:induction false} VisitNested(devices: map<Id, Obj>, deps: seq<(Id, Id)>, id: Id, level: nat, shown: set<Id>)
    ensures Nested(Visit(devices, deps, id, level, shown).rows, level)
    decreases |devices.Keys - shown|, 0, 0
  {
    if id in devices && id !in shown {
      RemoveOne(devices.Keys, shown, id);
      var w := VisitAll(devices, deps, Children(deps, id), level + 1, shown + {id});
      VisitAllNested(devices, deps, Children(deps, id), level + 1, shown + {id});
      NestedCons(Row(level, ObjInfo(devices[id])), w.rows, level);
      assert Visit(devices, deps, id, level, shown).rows == [Row(level, ObjInfo(devices[id]))] + w.rows;
    }
  }

  lemma {:induction false} VisitAllNested(devices: map<Id, Obj>, deps: seq<(Id, Id)>, ids: seq<Id>, level: nat,
                                          shown: set<Id>)
    ensures Nested(VisitAll(devices, deps, ids, level, shown).rows, level)
    decreases |devices.Keys - shown|, 1, |ids|
  {
    if ids != [] {
      VisitNested(devices, deps, ids[0], level, shown);
      var v := Visit(devices, deps, ids[0], level, shown);
      if v.missing.None? {
        SubsetDiff(devices.Keys, shown, v.shown);
        VisitAllNested(devices, deps, ids[1..], level, v.shown);
        NestedAppend(v.rows, VisitAll(devices, deps, ids[1..], level, v.shown).rows, level);
      }
    }
  }

  /** Every edge leads to an indexed object. */
  predicate Closed(devices: map<Id, Obj>, deps: seq<(Id, Id)>)
  {
    forall e :: e in deps ==> e.1 in devices
  }

  /**
   * A walk raises only on an id that is not indexed, and never raises when
   * it starts from indexed ids and every edge leads to an indexed object.
   */
  lemma {:induction false} VisitMissing(devices: map<Id, Obj>, deps: seq<(Id, Id)>, id: Id, level: nat, shown: set<Id>)
    ensures var w := Visit(devices, deps, id, level, shown);
            (w.missing.Some? ==> w.missing.value !in devices) &&
            (id in devices && Closed(devices, deps) ==> w.missing.None?)
    decreases |devices.Keys - shown|, 0, 0
  {
    if id in devices && id !in shown {
      RemoveOne(devices.Keys, shown, id);
      var children := Children(deps, id);
      if Closed(devices, deps) {
        forall i | 0 <= i < |children| ensures children[i] in devices {
          assert (id, children[i]) in deps;
        }
      }
      VisitAllMissing(devices, deps, children, level + 1, shown + {id});
    }
  }

  lemma {:induction false} VisitAllMissing(devices: map<Id, Obj>, deps: seq<(Id, Id)>, ids: seq<Id>, level: nat,
                                           shown: set<Id>)
    ensures var w := VisitAll(devices, deps, ids, level, shown);
            (w.missing.Some? ==> w.missing.value !in devices) &&
            ((forall i :: 0 <= i < |ids| ==> ids[i] in devices) && Closed(devices, deps) ==> w.missing.None?)
    decreases |devices.Keys - shown|, 1, |ids|
  {
    if ids != [] {
      VisitMissing(devices, deps, ids[0], level, shown);
      var v := Visit(devices, deps, ids[0], level, shown);
      if v.missing.None? {
        SubsetDiff(devices.Keys, shown, v.shown);
        VisitAllMissing(devices, deps, ids[1..], level, v.shown);
      }
    }
  }

  /** The ids of the expanded (unmarked) rows, in order. */
  function Expanded(rows: seq<Row>): seq<Id>
  {
    if rows == [] then []
    else (if rows[0].Row? then [rows[0].info.id] else []) + Expanded(rows[1..])
  }

  lemma {:induction false} ExpandedAppend(a: seq<Row>, b: seq<Row>)
    ensures Expanded(a + b) == Expanded(a) + Expanded(b)
  {
    if a != [] {
      assert (a + b)[0] == a[0];
      assert (a + b)[1..] == a[1..] + b;
      ExpandedAppend(a[1..], b);
      var head := if a[0].Row? then [a[0].info.id] else [];
      assert Expanded(a + b) == head + Expanded(a[1..] + b);
      assert head + (Expanded(a[1..]) + Expanded(b)) == (head + Expanded(a[1..])) + Expanded(b);
    } else {
      assert a + b == b;
    }
  }

  predicate Distinct(ids: seq<Id>)
  {
    forall i, j :: 0 <= i < j < |ids| ==> ids[i] != ids[j]
  }

  /**
   * Each id is expanded at most once: the expanded ids of a walk are
   * distinct, none was shown before, and they are exactly what it adds to
   * `shown`.
   */
  predicate ExpandsOnce(rows: seq<Row>, shown: set<Id>, after: set<Id>)
  {
    Distinct(Expanded(rows)) &&
    (forall i :: 0 <= i < |Expanded(rows)| ==> Expanded(rows)[i] !in shown) &&
    after == shown + (set x | x in Expanded(rows))
  }

  lemma ExpandsOnceAppend(a: seq<Row>, b: seq<Row>, s0: set<Id>, s1: set<Id>, s2: set<Id>)
    requires ExpandsOnce(a, s0, s1) && ExpandsOnce(b, s1, s2)
    ensures ExpandsOnce(a + b, s0, s2)
  {
    ExpandedAppend(a, b);
    var ea, eb := Expanded(a), Expanded(b);
    forall i, j | 0 <= i < j < |ea + eb| ensures (ea + eb)[i] != (ea + eb)[j] {
      if i < |ea| && j >= |ea| {
        assert (ea + eb)[i] in s1;
      }
    }
  }

  /** A single expanded row adds its id; a marked row, or none, adds nothing. */
  lemma ExpandsOnceRow(row: Row, shown: set<Id>)
    ensures row.Row? && row.info.id !in shown ==> ExpandsOnce([row], shown, shown + {row.info.id})
    ensures row.Repeat? ==> ExpandsOnce([row], shown, shown)
    ensures ExpandsOnce([], shown, shown)
  {
    assert Expanded([row]) == (if row.Row? then [row.info.id] else []) + Expanded([]);
    assert (set x | x in Expanded([])) == {};
    if row.Row? {
      assert (set x | x in Expanded([row])) == {row.info.id};
    } else {
      assert (set x | x in Expanded([row])) == {};
    }
  }

  lemma {:induction false} VisitExpandsOnce(devices: map<Id, Obj>, deps: seq<(Id, Id)>, id: Id, level: nat,
                                            shown: set<Id>)
    requires Consistent(devices)
    ensures var w := Visit(devices, deps, id, level, shown); ExpandsOnce(w.rows, shown, w.shown)
    decreases |devices.Keys - shown|, 0, 0
  {
    if id !in devices {
      ExpandsOnceRow(Repeat(level, ""), shown);
    } else if id in shown {
      ExpandsOnceRow(Repeat(level, "*** " + ObjInfo(devices[id]).id), shown);
    } else {
      RemoveOne(devices.Keys, shown, id);
      var w := VisitAll(devices, deps, Children(deps, id), level + 1, shown + {id});
      VisitAllExpandsOnce(devices, deps, Children(deps, id), level + 1, shown + {id});
      var row := Row(level, ObjInfo(devices[id]));
      ExpandsOnceRow(row, shown);
      ExpandsOnceAppend([row], w.rows, shown, shown + {id}, w.shown);
      assert Visit(devices, deps, id, level, shown) == Walk([row] + w.rows, w.shown, w.missing);
    }
  }

  lemma {:induction false} VisitAllExpandsOnce(devices: map<Id, Obj>, deps: seq<(Id, Id)>, ids: seq<Id>, level: nat,
                                               shown: set<Id>)
    requires Consistent(devices)
    ensures var w := VisitAll(devices, deps, ids, level, shown); ExpandsOnce(w.rows, shown, w.shown)
    decreases |devices.Keys - shown|, 1, |ids|
  {
    if ids != [] {
      VisitExpandsOnce(devices, deps, ids[0], level, shown);
      var v := Visit(devices, deps, ids[0], level, shown);
      if v.missing.None? {
        SubsetDiff(devices.Keys, shown, v.shown);
        VisitAllExpandsOnce(devices, deps, ids[1..], level, v.shown);
        var rest := VisitAll(devices, deps, ids[1..], level, v.shown);
        ExpandsOnceAppend(v.rows, rest.rows, shown, v.shown, rest.shown);
      }
    }
  }

  /**
   * What `cmd_tree` yields: every row at level 0 or deeper, each at most one
   * level below the previous one, the first at level 0; no object expanded
   * twice; a KeyError only for an id that is not indexed, and none when
   * every start id and every edge's child is indexed.
   */
  lemma CmdTreeShape(extents: seq<Obj>, pools: seq<Obj>, deps: seq<(Id, Id)>, device: Option<Obj>, order: seq<Id>)
    requires forall id :: id in order <==> id in Index(extents + pools)
    ensures var devices := Index(extents + pools);
            var start := StartIds(devices, device, order);
            var w := VisitAll(devices, deps, start, 0, {});
            Nested(w.rows, 0) && Distinct(Expanded(w.rows)) &&
            (w.missing.Some? ==> w.missing.value !in devices) &&
            ((forall i :: 0 <= i < |start| ==> start[i] in devices) && Closed(devices, deps) ==> w.missing.None?)
  {
    var devices := Index(extents + pools);
    var start := StartIds(devices, device, order);
    IndexConsistent(extents + pools);
    VisitAllNested(devices, deps, start, 0, {});
    VisitAllExpandsOnce(devices, deps, start, 0, {});
    VisitAllMissing(devices, deps, start, 0, {});
  }
}
