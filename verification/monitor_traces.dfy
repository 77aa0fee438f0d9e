/**
 * The monitor's unit tests (analyzer.level2) and two example programs
 * (testclasses.NSUPolicy) replayed against the session model. Each method
 * starts from a fresh heap table, as `init()` does, and returns what the
 * test observes; its postcondition is what the test asserts.
 */
module MonitorTraces {
  import opened Lattice
  import opened Outcomes
  import opened MonitorRules
  import opened Monitor

  /** What the tests read as `getLocalPC()` and `getGlobalPC()`, as one pair. */
  method ReadPCs(hs: HandleStmt) returns (p: (Level, Level))
    ensures p == (LocalPC(hs.localPCs), GlobalPC(hs.heap.globalPCs))
  {
    var l := hs.GetLocalPC();
    var g := hs.GetGlobalPC();
    p := (l, g);
  }

  /** IfStmtSuccess.ifStmtSimpleTest: the (local PC, global PC) pairs it reads, in order. */
  method IfStmtSimpleTrace() returns (xLevel: Level, pcs: seq<(Level, Level)>, closed: Outcome<MonitorError>)
    ensures xLevel == Low
    ensures pcs == [(Low, Low), (Low, Low), (High, High), (Low, Low), (Low, Low),
                    (High, High), (Low, Low), (High, High), (High, High)]
    ensures closed == Pass
  {
    var heap := new ObjectMap();
    var hs := new HandleStmt(heap);
    hs.AddObjectToObjectMap(1);
    hs.AddLocal("int_x");
    var x := hs.SetLevelOfLocal("int_x");
    assert hs.locals == map["int_x" := Low];
    var lx := hs.GetLocalLevel("int_x");
    xLevel := lx.value;
    pcs := ScopesInLowContext(hs);
    assert hs.localPCs == [] && heap.globalPCs == [];

    var ok := hs.MakeLocalLow("int_x");
    hs.PushLocalPC(High, 234);
    hs.PushGlobalPC(High);
    var inner := NestedScopeInHighContext(hs);
    pcs := pcs + inner;

    ok := hs.PopLocalPC(234);
    assert ok.Pass?;
    closed := hs.Close();
  }

  /**
   * Lines 31-73 of the test: a LOW scope holding a HIGH scope, then a HIGH
   * scope, all entered from empty PC stacks.
   */
  method ScopesInLowContext(hs: HandleStmt) returns (pcs: seq<(Level, Level)>)
    requires hs.locals == map["int_x" := Low] && hs.localPCs == [] && hs.heap.globalPCs == []
    modifies hs, hs.heap
    ensures pcs == [(Low, Low), (Low, Low), (High, High), (Low, Low), (Low, Low), (High, High), (Low, Low)]
    ensures hs.locals == map["int_x" := High] && hs.localPCs == [] && hs.heap.globalPCs == []
  {
    var p := ReadPCs(hs);
    pcs := [p];
    var nested := LowScopeHoldingHighScope(hs);
    pcs := pcs + nested;
    var single := HighScope(hs);
    pcs := pcs + single;
  }

  /** Lines 34-58 of the test: a branch on LOW `x`, inside it `x` becomes HIGH and a second branch opens. */
  method LowScopeHoldingHighScope(hs: HandleStmt) returns (pcs: seq<(Level, Level)>)
    requires hs.locals == map["int_x" := Low] && hs.localPCs == [] && hs.heap.globalPCs == []
    modifies hs, hs.heap
    ensures pcs == [(Low, Low), (High, High), (Low, Low), (Low, Low)]
    ensures hs.locals == map["int_x" := High] && hs.localPCs == [] && hs.heap.globalPCs == []
  {
    assert JoinLocals(hs.locals, ["int_x"]) == Ok(Low);
    var ok := hs.CheckCondition(123, ["int_x"]);
    assert hs.localPCs == [LocalPCEntry(Low, 123)] && hs.heap.globalPCs == [Low];
    var p := ReadPCs(hs);
    pcs := [p];
    ok := hs.MakeLocalHigh("int_x");
    assert hs.locals == map["int_x" := High];
    assert JoinLocals(hs.locals, ["int_x"]) == Ok(High);
    ok := hs.CheckCondition(123, ["int_x"]);
    assert hs.localPCs == [LocalPCEntry(Low, 123), LocalPCEntry(High, 123)];
    assert hs.heap.globalPCs == [Low, High];
    p := ReadPCs(hs);
    pcs := pcs + [p];
    ok := hs.ExitInnerScope(123);
    assert hs.localPCs == [LocalPCEntry(Low, 123)] && hs.heap.globalPCs == [Low];
    p := ReadPCs(hs);
    pcs := pcs + [p];
    ok := hs.ExitInnerScope(123);
    assert hs.localPCs == [] && hs.heap.globalPCs == [];
    p := ReadPCs(hs);
    pcs := pcs + [p];
  }

  /** Lines 60-73 of the test: a branch on HIGH `x` from empty PC stacks. */
  method HighScope(hs: HandleStmt) returns (pcs: seq<(Level, Level)>)
    requires hs.locals == map["int_x" := High] && hs.localPCs == [] && hs.heap.globalPCs == []
    modifies hs, hs.heap
    ensures pcs == [(High, High), (Low, Low)]
    ensures hs.locals == map["int_x" := High] && hs.localPCs == [] && hs.heap.globalPCs == []
  {
    var ok := hs.MakeLocalHigh("int_x");
    assert hs.locals == map["int_x" := High];
    assert JoinLocals(hs.locals, ["int_x"]) == Ok(High);
    ok := hs.CheckCondition(123, ["int_x"]);
    assert hs.localPCs == [LocalPCEntry(High, 123)] && hs.heap.globalPCs == [High];
    var p := ReadPCs(hs);
    pcs := [p];
    ok := hs.ExitInnerScope(123);
    assert hs.localPCs == [] && hs.heap.globalPCs == [];
    p := ReadPCs(hs);
    pcs := pcs + [p];
  }

  /**
   * Lines 75-89 of the test: inside an explicitly pushed HIGH context a
   * branch on a LOW local still runs at HIGH, and leaving it returns to HIGH.
   */
  method NestedScopeInHighContext(hs: HandleStmt) returns (pcs: seq<(Level, Level)>)
    requires hs.locals == map["int_x" := Low]
    requires hs.localPCs == [LocalPCEntry(High, 234)] && hs.heap.globalPCs == [High]
    modifies hs, hs.heap
    ensures pcs == [(High, High), (High, High)]
    ensures hs.localPCs == [LocalPCEntry(High, 234)] && hs.heap.globalPCs == [High]
  {
    assert JoinLocals(hs.locals, ["int_x"]) == Ok(Low);
    var ok := hs.CheckCondition(123, ["int_x"]);
    assert hs.localPCs == [LocalPCEntry(High, 234), LocalPCEntry(High, 123)];
    assert hs.heap.globalPCs == [High, High];
    var p := ReadPCs(hs);
    pcs := [p];
    ok := hs.ExitInnerScope(123);
    assert hs.localPCs == [LocalPCEntry(High, 234)] && hs.heap.globalPCs == [High];
    p := ReadPCs(hs);
    pcs := pcs + [p];
  }

  /** Overwriting the only field of the only object. */
  lemma SingleFieldUpdate(o: ObjectId, f: string, l: Level, l': Level)
    ensures SetField(map[o := map[f := l]], o, f, l') == map[o := map[f := l']]
  {
    assert map[f := l][f := l'] == map[f := l'];
  }

  /** AssignFieldsSuccess.assignConstantToField: global PC, field level and assigned level, three times. */
  method AssignConstantToFieldTrace() returns (observed: seq<Level>)
    ensures observed == [Low, Low, Low, Low, High, Low, High, High, High]
  {
    var heap := new ObjectMap();
    var hs := new HandleStmt(heap);
    var self: ObjectId := 1;
    assert heap.objects == map[];
    hs.AddObjectToObjectMap(self);
    assert heap.objects == map[self := map[]];
    hs.AddFieldToObjectMap(self, "int_field");
    assert heap.objects == map[self := map["int_field" := Low]];

    var g := hs.GetGlobalPC();
    var f := hs.GetFieldLevel(self, "int_field");
    assert hs.assignmentLevel == Low && heap.globalPCs == [] && hs.heap == heap;
    assert FieldLevelOrBottom(heap.objects, self, "int_field") == Low;
    var s := hs.SetLevelOfField(self, "int_field");
    assert s == Ok(Low);
    SingleFieldUpdate(self, "int_field", Low, Low);
    assert heap.objects == map[self := map["int_field" := Low]];
    observed := [g, f.value, s.value];

    hs.MakeFieldHigh(self, "int_field");
    SingleFieldUpdate(self, "int_field", Low, High);
    assert heap.objects == map[self := map["int_field" := High]];
    g := hs.GetGlobalPC();
    f := hs.GetFieldLevel(self, "int_field");
    assert g == Low && f == Ok(High);
    s := hs.SetLevelOfField(self, "int_field");
    assert s == Ok(Low);
    SingleFieldUpdate(self, "int_field", High, Low);
    assert heap.objects == map[self := map["int_field" := Low]];
    observed := observed + [g, f.value, s.value];

    var rest := HighContextFieldWrite(hs, self);
    observed := observed + rest;
  }

  /** The field is made HIGH and a HIGH global context is entered before `field = 42`. */
  method HighContextFieldWrite(hs: HandleStmt, self: ObjectId) returns (observed: seq<Level>)
    requires hs.heap.objects == map[self := map["int_field" := Low]]
    requires hs.assignmentLevel == Low && hs.heap.globalPCs == []
    modifies hs, hs.heap
    ensures observed == [High, High, High]
  {
    hs.MakeFieldHigh(self, "int_field");
    SingleFieldUpdate(self, "int_field", Low, High);
    hs.PushGlobalPC(Top());
    assert hs.heap.objects == map[self := map["int_field" := High]] && hs.heap.globalPCs == [High];
    var g := hs.GetGlobalPC();
    var f := hs.GetFieldLevel(self, "int_field");
    var s := hs.SetLevelOfField(self, "int_field");
    observed := [g, f.value, s.value];
  }

  /**
   * AssignFieldsSuccess.assignLocalsToField: the object count, then the
   * levels returned by each `addLevelOfLocal` and `setLevelOfField`.
   */
  method AssignLocalsToFieldTrace() returns (count: nat, observed: seq<Level>, closed: Outcome<MonitorError>)
    ensures count == 1
    ensures observed == [Low, Low, Low, Low, Low, Low, High, High]
    ensures closed == Pass
  {
    var heap := new ObjectMap();
    var hs := new HandleStmt(heap);
    var self: ObjectId := 1;
    hs.AddObjectToObjectMap(self);
    count := hs.GetNumberOfElementsInObjectMap();
    hs.AddFieldToObjectMap(self, "int_field");
    hs.AddLocal("int_var1");
    hs.AddLocal("int_var2");
    hs.PushLocalPC(Bottom(), 123);
    assert heap.objects == map[self := map["int_field" := Low]];
    assert hs.locals == map["int_var1" := Low, "int_var2" := Low];
    assert hs.assignmentLevel == Low && heap.globalPCs == [];

    observed := LocalsToFieldSteps(hs, self);

    var ok := hs.PopLocalPC(123);
    assert ok.Pass?;
    closed := hs.Close();
  }

  /** Lines 84-94 of the test: `field = var1`, `field = var1 + var2`, then the same with `var2` HIGH. */
  method LocalsToFieldSteps(hs: HandleStmt, self: ObjectId) returns (observed: seq<Level>)
    requires hs.heap.objects == map[self := map["int_field" := Low]]
    requires hs.locals == map["int_var1" := Low, "int_var2" := Low]
    requires hs.assignmentLevel == Low && hs.heap.globalPCs == []
    modifies hs, hs.heap
    ensures observed == [Low, Low, Low, Low, Low, Low, High, High]
    ensures hs.localPCs == old(hs.localPCs)
  {
    var a := hs.AddLevelOfLocal("int_var1");
    var s := hs.SetLevelOfField(self, "int_field");
    SingleFieldUpdate(self, "int_field", Low, Low);
    assert s == Ok(Low) && hs.heap.objects == map[self := map["int_field" := Low]];
    observed := [a.value, s.value];

    var a1 := hs.AddLevelOfLocal("int_var1");
    var a2 := hs.AddLevelOfLocal("int_var2");
    s := hs.SetLevelOfField(self, "int_field");
    assert s == Ok(Low) && hs.heap.objects == map[self := map["int_field" := Low]];
    observed := observed + [a1.value, a2.value, s.value];
    var rest := HighOperandToField(hs, self);
    observed := observed + rest;
  }

  /** Lines 91-94 of the test: `var2` is made HIGH, so `field = var1 + var2` makes the field HIGH. */
  method HighOperandToField(hs: HandleStmt, self: ObjectId) returns (observed: seq<Level>)
    requires hs.heap.objects == map[self := map["int_field" := Low]]
    requires hs.locals == map["int_var1" := Low, "int_var2" := Low]
    requires hs.assignmentLevel == Low && hs.heap.globalPCs == []
    modifies hs, hs.heap
    ensures observed == [Low, High, High]
    ensures hs.localPCs == old(hs.localPCs)
  {
    var ok := hs.SetLevelOfLocalTo("int_var2", Top());
    assert hs.locals == map["int_var1" := Low, "int_var2" := High] && hs.assignmentLevel == Low;
    var a1 := hs.AddLevelOfLocal("int_var1");
    var a2 := hs.AddLevelOfLocal("int_var2");
    assert hs.assignmentLevel == High;
    var s := hs.SetLevelOfField(self, "int_field");
    observed := [a1.value, a2.value, s.value];
  }

  /** AssignFieldsSuccess.assignLocalsToAStaticField: static fields are fields of the class object. */
  method AssignLocalsToStaticFieldTrace() returns (count: nat, observed: seq<Level>, closed: Outcome<MonitorError>)
    ensures count == 1
    ensures observed == [Low, Low, High, High]
    ensures closed == Pass
  {
    var heap := new ObjectMap();
    var hs := new HandleStmt(heap);
    var cls: ObjectId := 7;
    hs.AddObjectToObjectMap(cls);
    count := hs.GetNumberOfElementsInObjectMap();
    hs.AddFieldToObjectMap(cls, "int_sField");
    hs.AddLocal("int_var1");
    hs.PushLocalPC(Bottom(), 123);
    assert heap.objects == map[cls := map["int_sField" := Low]];
    assert hs.locals == map["int_var1" := Low];
    assert hs.assignmentLevel == Low && heap.globalPCs == [];

    observed := StaticFieldSteps(hs, cls);

    var ok := hs.PopLocalPC(123);
    assert ok.Pass?;
    closed := hs.Close();
  }

  /** `sField = var1` with `var1` LOW, then with `var1` HIGH. */
  method StaticFieldSteps(hs: HandleStmt, cls: ObjectId) returns (observed: seq<Level>)
    requires hs.heap.objects == map[cls := map["int_sField" := Low]]
    requires hs.locals == map["int_var1" := Low]
    requires hs.assignmentLevel == Low && hs.heap.globalPCs == []
    modifies hs, hs.heap
    ensures observed == [Low, Low, High, High]
    ensures hs.localPCs == old(hs.localPCs)
  {
    var a := hs.AddLevelOfLocal("int_var1");
    var s := hs.SetLevelOfField(cls, "int_sField");
    SingleFieldUpdate(cls, "int_sField", Low, Low);
    assert s == Ok(Low) && hs.heap.objects == map[cls := map["int_sField" := Low]];
    observed := [a.value, s.value];
    var rest := HighLocalToStaticField(hs, cls);
    observed := observed + rest;
  }

  /** `var1` is made HIGH, so `sField = var1` makes the static field HIGH. */
  method HighLocalToStaticField(hs: HandleStmt, cls: ObjectId) returns (observed: seq<Level>)
    requires hs.heap.objects == map[cls := map["int_sField" := Low]]
    requires hs.locals == map["int_var1" := Low]
    requires hs.assignmentLevel == Low && hs.heap.globalPCs == []
    modifies hs, hs.heap
    ensures observed == [High, High]
    ensures hs.localPCs == old(hs.localPCs)
  {
    var ok := hs.SetLevelOfLocalTo("int_var1", Top());
    assert hs.locals == map["int_var1" := High] && hs.assignmentLevel == Low;
    var a := hs.AddLevelOfLocal("int_var1");
    assert hs.assignmentLevel == High;
    var s := hs.SetLevelOfField(cls, "int_sField");
    observed := [a.value, s.value];
  }

  /**
   * AssignFieldsSuccess.assignLocalsToAnExternalField: a field of an object
   * that was never registered, written three times.
   */
  method AssignLocalsToExternalFieldTrace() returns (observed: seq<Level>)
    ensures observed == [Low, Low, Low, Low, Low, High]
  {
    var heap := new ObjectMap();
    var hs := new HandleStmt(heap);
    var self: ObjectId := 1;
    var o: ObjectId := 2;
    hs.AddObjectToObjectMap(self);
    hs.AddLocal("int_local");
    var x := hs.SetLevelOfLocal("int_local");
    hs.AddLocal("TestSubClass_o");
    assert heap.objects == map[self := map[]] && heap.globalPCs == [];
    assert hs.locals == map["int_local" := Low, "TestSubClass_o" := Low] && hs.assignmentLevel == Low;

    var a := hs.AddLevelOfLocal("int_local");
    var s := hs.SetLevelOfField(o, "int_pField");
    assert s == Ok(Low);
    assert heap.objects == map[self := map[], o := map["int_pField" := Low]];
    observed := [a.value, s.value];

    var rest := ExternalFieldUpgrades(hs, self, o);
    observed := observed + rest;
  }

  /** Lines 162-172 of the test: the field made HIGH, written under a LOW and then a HIGH global PC. */
  method ExternalFieldUpgrades(hs: HandleStmt, self: ObjectId, o: ObjectId) returns (observed: seq<Level>)
    requires self != o
    requires hs.heap.objects == map[self := map[], o := map["int_pField" := Low]] && hs.heap.globalPCs == []
    requires hs.locals == map["int_local" := Low, "TestSubClass_o" := Low] && hs.assignmentLevel == Low
    modifies hs, hs.heap
    ensures observed == [Low, Low, Low, High]
  {
    var heap := hs.heap;
    hs.MakeFieldHigh(o, "int_pField");
    assert map["int_pField" := Low]["int_pField" := High] == map["int_pField" := High];
    assert heap.objects == map[self := map[], o := map["int_pField" := High]];
    var a := hs.AddLevelOfLocal("int_local");
    var s := hs.SetLevelOfField(o, "int_pField");
    assert s == Ok(Low);
    assert map["int_pField" := High]["int_pField" := Low] == map["int_pField" := Low];
    assert heap.objects == map[self := map[], o := map["int_pField" := Low]];
    observed := [a.value, s.value];

    hs.MakeFieldHigh(o, "int_pField");
    hs.PushGlobalPC(Top());
    assert map["int_pField" := Low]["int_pField" := High] == map["int_pField" := High];
    assert heap.objects == map[self := map[], o := map["int_pField" := High]] && heap.globalPCs == [High];
    a := hs.AddLevelOfLocal("int_local");
    s := hs.SetLevelOfField(o, "int_pField");
    observed := observed + [a.value, s.value];
  }

  /** ArraysSuccess.createArrayTest: an array of three elements has three tracked slots. */
  method CreateArrayTrace() returns (slots: Result<nat, MonitorError>)
    ensures slots == Ok(3)
  {
    var heap := new ObjectMap();
    var hs := new HandleStmt(heap);
    var arr: ObjectId := 3;
    hs.AddLocal("String[]_a");
    hs.AddArrayToObjectMap(arr, 3);
    ArraySlotsCount(3);
    slots := hs.GetNumberOfFieldsInObjectMap(arr);
  }

  /** ArraysSuccess.readArray: `x = a[i]` with everything bottom leaves `x` bottom. */
  method ReadArrayTrace() returns (contains: bool, slots: Result<nat, MonitorError>, x: Result<Level, MonitorError>)
    ensures contains && slots == Ok(3)
    ensures x == Ok(Low)
  {
    var heap := new ObjectMap();
    var hs := new HandleStmt(heap);
    var arr: ObjectId := 3;
    hs.AddArrayToObjectMap(arr, 3);
    hs.AddLocal("String[]_a");
    hs.AddLocal("int_i");
    contains := hs.ContainsObjectInObjectMap(arr);
    ArraySlotsCount(3);
    slots := hs.GetNumberOfFieldsInObjectMap(arr);

    ArraySlotsIndex(3, 2);
    assert Decimal.NatToDecimal(2) == "2";
    var r := hs.AddLevelOfArrayField(arr, "2");
    assert r.Ok?;
    r := hs.AddLevelOfLocal("int_i");
    r := hs.AddLevelOfLocal("String[]_a");
    hs.AddLocal("String_x");
    r := hs.SetLevelOfLocal("String_x");
    x := hs.GetLocalLevel("String_x");
  }

  /** ArraysSuccess.writeArray: `a[2] = c` with bottom array, index and PC leaves the slot bottom. */
  method WriteArrayTrace() returns (slot: Result<Level, MonitorError>)
    ensures slot == Ok(Low)
  {
    var heap := new ObjectMap();
    var hs := new HandleStmt(heap);
    var arr: ObjectId := 3;
    hs.AddArrayToObjectMap(arr, 3);
    var contains := hs.ContainsObjectInObjectMap(arr);
    assert contains;
    hs.AddLocal("String[]_a");
    hs.AddLocal("int_i");
    ArraySlotsIndex(3, 2);
    assert Decimal.NatToDecimal(2) == "2";
    var w := hs.SetLevelOfArrayField(arr, "2", "String[]_a", "int_i");
    assert w == Ok(Low);
    slot := hs.GetFieldLevel(arr, "2");
  }

  /** CheckThatNotHigh.successTest: a freshly added local passes the sink check. */
  method CheckThatNotHighSuccessTrace() returns (check: Outcome<MonitorError>, closed: Outcome<MonitorError>)
    ensures check == Pass && closed == Pass
  {
    var heap := new ObjectMap();
    var hs := new HandleStmt(heap);
    hs.AddLocal("String_low");
    check := hs.CheckThatNotHigh("String_low");
    closed := hs.Close();
  }

  /** CheckThatNotHigh.failTest: a local set to HIGH reads HIGH and fails the sink check. */
  method CheckThatNotHighFailTrace() returns (level: Result<Level, MonitorError>, check: Outcome<MonitorError>)
    ensures level == Ok(High)
    ensures check == Fail(IllegalFlow)
  {
    var heap := new ObjectMap();
    var hs := new HandleStmt(heap);
    hs.AddLocal("String_high");
    var ok := hs.SetLevelOfLocalTo("String_high", High);
    level := hs.GetLocalLevel("String_high");
    check := hs.CheckThatNotHigh("String_high");
  }

  /**
   * testclasses.NSUPolicy: `y` is LOW before a branch on a HIGH `secret`;
   * `y += 1` inside the branch is an illegal flow.
   */
  method NsuPolicyTrace() returns (write: Result<Level, MonitorError>)
    ensures write == Err(IllegalFlow)
  {
    var heap := new ObjectMap();
    var hs := new HandleStmt(heap);
    hs.AddLocal("int_y");
    hs.AddLocal("int_secret");
    var w := hs.SetLevelOfLocal("int_y");
    var ok := hs.MakeLocalHigh("int_secret");
    ok := hs.CheckCondition(19, ["int_secret"]);
    var r := hs.AddLevelOfLocal("int_y");
    write := hs.SetLevelOfLocal("int_y");
  }
}
