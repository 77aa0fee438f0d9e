/**
 * The monitor session that instrumented code calls into
 * (analyzer.level2.HandleStmt / HandleStmtForTests), and the heap table it
 * shares with every other session of the same run.
 */
module Monitor {
  import opened Lattice
  import opened Outcomes
  import opened MonitorRules

  /**
   * The process-wide object map: per-object field labels (arrays are objects
   * whose fields are decimal index strings) and the global-PC stack.
   * `HandleStmt.init()` corresponds to constructing a fresh one.
   */
  class ObjectMap {
    var objects: map<ObjectId, map<string, Level>>
    var globalPCs: seq<Level>

    constructor ()
      ensures objects == map[] && globalPCs == []
    {
      objects := map[];
      globalPCs := [];
    }
  }

  /** One monitor session: the locals of one analysed frame, its local-PC stack and its operand accumulator. */
  class HandleStmt {
    const heap: ObjectMap
    var locals: map<string, Level>
    var localPCs: seq<LocalPCEntry>
    /** Join of the operands read since the last assignment. */
    var assignmentLevel: Level

    constructor (heap: ObjectMap)
      ensures this.heap == heap
      ensures locals == map[] && localPCs == [] && assignmentLevel == Bottom()
    {
      this.heap := heap;
      locals := map[];
      localPCs := [];
      assignmentLevel := Bottom();
    }

    /** Both PC stacks as one value. */
    function Pcs(): PcStacks
      reads this, heap
    {
      PcStacks(localPCs, heap.globalPCs)
    }

    // -------------------------------------------------------------------
    // Locals
    // -------------------------------------------------------------------

    /** `addLocal`: registers a local at bottom; a local already registered keeps its level. */
    method AddLocal(name: string)
      modifies this
      ensures locals == if name in old(locals) then old(locals) else old(locals)[name := Bottom()]
      ensures localPCs == old(localPCs) && assignmentLevel == old(assignmentLevel)
    {
      if name !in locals {
        locals := locals[name := Bottom()];
      }
    }

    /** `getLocalLevel`. */
    method GetLocalLevel(name: string) returns (r: Result<Level, MonitorError>)
      ensures r.Ok? <==> name in locals
      ensures r.Ok? ==> r.value == locals[name]
      ensures r.Err? ==> r.error == UnknownLocal(name)
    {
      if name in locals {
        r := Ok(locals[name]);
      } else {
        r := Err(UnknownLocal(name));
      }
    }

    /**
     * `setLevelOfLocal(name, level)` (and `makeLocalHigh`/`makeLocalLow`):
     * a plain overwrite of a registered local, with no flow check.
     */
    method SetLevelOfLocalTo(name: string, level: Level) returns (r: Outcome<MonitorError>)
      modifies this
      ensures r.Pass? <==> name in old(locals)
      ensures r.Fail? ==> r.error == UnknownLocal(name)
      ensures locals == if r.Pass? then old(locals)[name := level] else old(locals)
      ensures localPCs == old(localPCs) && assignmentLevel == old(assignmentLevel)
    {
      if name in locals {
        locals := locals[name := level];
        r := Pass;
      } else {
        r := Fail(UnknownLocal(name));
      }
    }

    /** `makeLocalHigh`. */
    method MakeLocalHigh(name: string) returns (r: Outcome<MonitorError>)
      modifies this
      ensures r.Pass? <==> name in old(locals)
      ensures locals == if r.Pass? then old(locals)[name := Top()] else old(locals)
      ensures localPCs == old(localPCs) && assignmentLevel == old(assignmentLevel)
    {
      r := SetLevelOfLocalTo(name, Top());
    }

    /** `makeLocalLow`. */
    method MakeLocalLow(name: string) returns (r: Outcome<MonitorError>)
      modifies this
      ensures r.Pass? <==> name in old(locals)
      ensures locals == if r.Pass? then old(locals)[name := Bottom()] else old(locals)
      ensures localPCs == old(localPCs) && assignmentLevel == old(assignmentLevel)
    {
      r := SetLevelOfLocalTo(name, Bottom());
    }

    /**
     * `addLevelOfLocal`: an operand of the current expression is read; its
     * level joins the accumulator and is returned.
     */
    method AddLevelOfLocal(name: string) returns (r: Result<Level, MonitorError>)
      modifies this
      ensures r.Ok? <==> name in old(locals)
      ensures r.Ok? ==> r.value == old(locals)[name] && assignmentLevel == Join(old(assignmentLevel), r.value)
      ensures r.Err? ==> r.error == UnknownLocal(name) && assignmentLevel == old(assignmentLevel)
      ensures locals == old(locals) && localPCs == old(localPCs)
    {
      if name in locals {
        r := Ok(locals[name]);
        assignmentLevel := Join(assignmentLevel, locals[name]);
      } else {
        r := Err(UnknownLocal(name));
      }
    }

    /**
     * `setLevelOfLocal(name)`: assignment of the operands read so far to a
     * local, under the no-sensitive-upgrade check against the local PC. On
     * success the accumulator is emptied.
     */
    method SetLevelOfLocal(name: string) returns (r: Result<Level, MonitorError>)
      modifies this
      ensures name !in old(locals) ==> r == Err(UnknownLocal(name))
      ensures name in old(locals) ==>
                r == GuardedAssign(old(locals)[name], old(assignmentLevel), LocalPC(localPCs))
      ensures r.Ok? ==> locals == old(locals)[name := r.value] && assignmentLevel == Bottom()
      ensures r.Err? ==> locals == old(locals) && assignmentLevel == old(assignmentLevel)
      ensures localPCs == old(localPCs)
    {
      if name !in locals {
        return Err(UnknownLocal(name));
      }
      r := GuardedAssign(locals[name], assignmentLevel, LocalPC(localPCs));
      if r.Ok? {
        locals := locals[name := r.value];
        assignmentLevel := Bottom();
      }
    }

    /** `checkThatNotHigh`: the sink check; a top-level local raises an illegal flow. */
    method CheckThatNotHigh(name: string) returns (r: Outcome<MonitorError>)
      ensures r.Pass? <==> name in locals && locals[name] != Top()
      ensures r.Fail? ==> r.error == if name in locals then IllegalFlow else UnknownLocal(name)
    {
      if name !in locals {
        r := Fail(UnknownLocal(name));
      } else if locals[name] == Top() {
        r := Fail(IllegalFlow);
      } else {
        r := Pass;
      }
    }

    // -------------------------------------------------------------------
    // Program counters
    // -------------------------------------------------------------------

    /** `getLocalPC`. */
    method GetLocalPC() returns (l: Level)
      ensures l == LocalPC(localPCs)
    {
      l := if localPCs == [] then Bottom() else localPCs[|localPCs| - 1].level;
    }

    /** `getGlobalPC`. */
    method GetGlobalPC() returns (l: Level)
      ensures l == GlobalPC(heap.globalPCs)
    {
      l := if heap.globalPCs == [] then Bottom() else heap.globalPCs[|heap.globalPCs| - 1];
    }

    /** `pushLocalPC`: opens a local scope at exactly `level`. */
    method PushLocalPC(level: Level, tag: Tag)
      modifies this
      ensures localPCs == old(localPCs) + [LocalPCEntry(level, tag)]
      ensures locals == old(locals) && assignmentLevel == old(assignmentLevel)
    {
      localPCs := localPCs + [LocalPCEntry(level, tag)];
    }

    /** `popLocalPC`: closes the innermost local scope, which must carry `tag`. */
    method PopLocalPC(tag: Tag) returns (r: Outcome<MonitorError>)
      modifies this
      ensures r.Pass? <==> old(localPCs) != [] && old(localPCs)[|old(localPCs)| - 1].tag == tag
      ensures r.Fail? ==> r.error == ScopeMismatch(tag) && localPCs == old(localPCs)
      ensures r.Pass? ==> localPCs + [old(localPCs)[|old(localPCs)| - 1]] == old(localPCs)
      ensures locals == old(locals) && assignmentLevel == old(assignmentLevel)
    {
      if localPCs != [] && localPCs[|localPCs| - 1].tag == tag {
        localPCs := localPCs[..|localPCs| - 1];
        r := Pass;
      } else {
        r := Fail(ScopeMismatch(tag));
      }
    }

    /** `pushGlobalPC`: sets the global PC to exactly `level` until the matching pop. */
    method PushGlobalPC(level: Level)
      modifies heap
      ensures heap.globalPCs == old(heap.globalPCs) + [level]
      ensures heap.objects == old(heap.objects)
    {
      heap.globalPCs := heap.globalPCs + [level];
    }

    /**
     * `checkCondition`: entering a branch whose condition reads the locals
     * `args`; both PCs are raised as `EnterScope` describes.
     */
    method CheckCondition(tag: Tag, args: seq<string>) returns (r: Outcome<MonitorError>)
      modifies this, heap
      ensures r.Pass? <==> JoinLocals(old(locals), args).Ok?
      ensures r.Fail? ==> r.error == JoinLocals(old(locals), args).error && Pcs() == old(Pcs())
      ensures r.Pass? ==> Pcs() == EnterScope(old(Pcs()), JoinLocals(old(locals), args).value, tag)
      ensures locals == old(locals) && assignmentLevel == old(assignmentLevel)
      ensures heap.objects == old(heap.objects)
    {
      var cond := JoinLocals(locals, args);
      if cond.Err? {
        return Fail(cond.error);
      }
      var next := EnterScope(Pcs(), cond.value, tag);
      localPCs := next.localPCs;
      heap.globalPCs := next.globalPCs;
      r := Pass;
    }

    /** `exitInnerScope`: leaves the innermost branch, which must carry `tag`. */
    method ExitInnerScope(tag: Tag) returns (r: Outcome<MonitorError>)
      modifies this, heap
      ensures r.Pass? <==> ExitScope(old(Pcs()), tag).Ok?
      ensures r.Fail? ==> r.error == ScopeMismatch(tag) && Pcs() == old(Pcs())
      ensures r.Pass? ==> Pcs() == ExitScope(old(Pcs()), tag).value
      ensures locals == old(locals) && assignmentLevel == old(assignmentLevel)
      ensures heap.objects == old(heap.objects)
    {
      var next := ExitScope(Pcs(), tag);
      if next.Err? {
        return Fail(next.error);
      }
      localPCs := next.value.localPCs;
      heap.globalPCs := next.value.globalPCs;
      r := Pass;
    }

    /** `close`: ends the session; every local scope must have been closed. */
    method Close() returns (r: Outcome<MonitorError>)
      ensures r.Pass? <==> localPCs == []
      ensures r.Fail? ==> r.error.ScopeMismatch? && r.error.tag == localPCs[|localPCs| - 1].tag
    {
      if localPCs == [] {
        r := Pass;
      } else {
        r := Fail(ScopeMismatch(localPCs[|localPCs| - 1].tag));
      }
    }

    // -------------------------------------------------------------------
    // Objects, fields and arrays
    // -------------------------------------------------------------------

    /** `addObjectToObjectMap`: registers an object with no fields, unless already registered. */
    method AddObjectToObjectMap(o: ObjectId)
      modifies heap
      ensures heap.objects == if o in old(heap.objects) then old(heap.objects) else old(heap.objects)[o := map[]]
      ensures heap.globalPCs == old(heap.globalPCs)
    {
      if o !in heap.objects {
        heap.objects := heap.objects[o := map[]];
      }
    }

    /** `addFieldToObjectMap`: registers field `f` of `o` at bottom, unless already registered. */
    method AddFieldToObjectMap(o: ObjectId, f: string)
      modifies heap
      ensures LookupField(old(heap.objects), o, f).Some? ==> heap.objects == old(heap.objects)
      ensures LookupField(old(heap.objects), o, f).None? ==> heap.objects == SetField(old(heap.objects), o, f, Bottom())
      ensures heap.globalPCs == old(heap.globalPCs)
    {
      if LookupField(heap.objects, o, f).None? {
        heap.objects := SetField(heap.objects, o, f, Bottom());
      }
    }

    /** `addArrayToObjectMap`: registers an array of `length` elements with one bottom slot per index. */
    method AddArrayToObjectMap(a: ObjectId, length: nat)
      modifies heap
      ensures heap.objects == if a in old(heap.objects) then old(heap.objects) else old(heap.objects)[a := ArraySlots(length)]
      ensures heap.globalPCs == old(heap.globalPCs)
    {
      if a !in heap.objects {
        heap.objects := heap.objects[a := ArraySlots(length)];
      }
    }

    /** `containsObjectInObjectMap`. */
    method ContainsObjectInObjectMap(o: ObjectId) returns (b: bool)
      ensures b <==> o in heap.objects
    {
      b := o in heap.objects;
    }

    /** `getNumberOfElementsInObjectMap`: how many objects are registered. */
    method GetNumberOfElementsInObjectMap() returns (n: nat)
      ensures n == |heap.objects|
    {
      n := |heap.objects|;
    }

    /** `getNumberOfFieldsInObjectMap`: how many fields (array slots) an object has. */
    method GetNumberOfFieldsInObjectMap(o: ObjectId) returns (r: Result<nat, MonitorError>)
      ensures r.Ok? <==> o in heap.objects
      ensures r.Ok? ==> r.value == |heap.objects[o]|
      ensures r.Err? ==> r.error == UnknownObject(o)
    {
      if o in heap.objects {
        r := Ok(|heap.objects[o]|);
      } else {
        r := Err(UnknownObject(o));
      }
    }

    /** `getFieldLevel`: the level of a field or an array slot. */
    method GetFieldLevel(o: ObjectId, f: string) returns (r: Result<Level, MonitorError>)
      ensures r.Ok? <==> LookupField(heap.objects, o, f).Some?
      ensures r.Ok? ==> r.value == LookupField(heap.objects, o, f).value
      ensures r.Err? ==> r.error == UnknownField(o, f)
    {
      if o in heap.objects && f in heap.objects[o] {
        r := Ok(heap.objects[o][f]);
      } else {
        r := Err(UnknownField(o, f));
      }
    }

    /** `makeFieldHigh`: an explicit overwrite of a field with top. */
    method MakeFieldHigh(o: ObjectId, f: string)
      modifies heap
      ensures heap.objects == SetField(old(heap.objects), o, f, Top())
      ensures heap.globalPCs == old(heap.globalPCs)
    {
      heap.objects := SetField(heap.objects, o, f, Top());
    }

    /**
     * `setLevelOfField`: assignment of the operands read so far to field `f`
     * of `o`, checked against the global PC. A field seen for the first time
     * counts as bottom.
     */
    method SetLevelOfField(o: ObjectId, f: string) returns (r: Result<Level, MonitorError>)
      modifies this, heap
      ensures r == GuardedAssign(FieldLevelOrBottom(old(heap.objects), o, f),
                                 old(assignmentLevel), GlobalPC(heap.globalPCs))
      ensures r.Ok? ==> heap.objects == SetField(old(heap.objects), o, f, r.value) && assignmentLevel == Bottom()
      ensures r.Err? ==> heap.objects == old(heap.objects) && assignmentLevel == old(assignmentLevel)
      ensures locals == old(locals) && localPCs == old(localPCs) && heap.globalPCs == old(heap.globalPCs)
    {
      var current := FieldLevelOrBottom(heap.objects, o, f);
      r := GuardedAssign(current, assignmentLevel, GlobalPC(heap.globalPCs));
      if r.Ok? {
        heap.objects := SetField(heap.objects, o, f, r.value);
        assignmentLevel := Bottom();
      }
    }

    /** `addLevelOfArrayField`: slot `a[index]` is read as an operand. */
    method AddLevelOfArrayField(a: ObjectId, index: string) returns (r: Result<Level, MonitorError>)
      modifies this
      ensures r.Ok? <==> LookupField(heap.objects, a, index).Some?
      ensures r.Ok? ==> r.value == LookupField(heap.objects, a, index).value
                        && assignmentLevel == Join(old(assignmentLevel), r.value)
      ensures r.Err? ==> r.error == UnknownField(a, index) && assignmentLevel == old(assignmentLevel)
      ensures locals == old(locals) && localPCs == old(localPCs)
    {
      var slot := LookupField(heap.objects, a, index);
      if slot.None? {
        return Err(UnknownField(a, index));
      }
      r := Ok(slot.value);
      assignmentLevel := Join(assignmentLevel, slot.value);
    }

    /**
     * `setLevelOfArrayField(a, index, localForObject, localForIndex)`:
     * assignment to slot `a[index]`, where the locals holding the array
     * reference and the index are named so that their levels enter the check.
     */
    method SetLevelOfArrayField(a: ObjectId, index: string, localForObject: string, localForIndex: string)
      returns (r: Result<Level, MonitorError>)
      modifies this, heap
      ensures localForObject !in old(locals) ==> r == Err(UnknownLocal(localForObject))
      ensures localForObject in old(locals) && localForIndex !in old(locals) ==> r == Err(UnknownLocal(localForIndex))
      ensures (localForObject in old(locals) && localForIndex in old(locals) && LookupField(old(heap.objects), a, index).None?)
                ==> r == Err(UnknownField(a, index))
      ensures (localForObject in old(locals) && localForIndex in old(locals) && LookupField(old(heap.objects), a, index).Some?)
                ==> r == GuardedArrayAssign(LookupField(old(heap.objects), a, index).value, old(assignmentLevel),
                                            GlobalPC(heap.globalPCs), old(locals)[localForObject], old(locals)[localForIndex])
      ensures r.Ok? ==> heap.objects == SetField(old(heap.objects), a, index, r.value) && assignmentLevel == Bottom()
      ensures r.Err? ==> heap.objects == old(heap.objects) && assignmentLevel == old(assignmentLevel)
      ensures locals == old(locals) && localPCs == old(localPCs) && heap.globalPCs == old(heap.globalPCs)
    {
      if localForObject !in locals {
        return Err(UnknownLocal(localForObject));
      }
      if localForIndex !in locals {
        return Err(UnknownLocal(localForIndex));
      }
      var slot := LookupField(heap.objects, a, index);
      if slot.None? {
        return Err(UnknownField(a, index));
      }
      r := GuardedArrayAssign(slot.value, assignmentLevel, GlobalPC(heap.globalPCs),
                              locals[localForObject], locals[localForIndex]);
      if r.Ok? {
        heap.objects := SetField(heap.objects, a, index, r.value);
        assignmentLevel := Bottom();
      }
    }
  }
}
