/** Circuit validation and the normalization that follows it (src/domain/validation.rs). */
module Validation {
  import opened Wrappers
  import opened Json

  datatype Error =
    | Unsupported(kind: string, at: nat)
    | IfNeedsObject(at: nat)
    | IfMissingGate(at: nat)
    | IfInvalidGate(at: nat)
    | MissingQubit(at: nat)
    | NotAnIndex(at: nat)
    | Negative(index: int)
    | NegativeAt(index: int, at: nat)
    | OutOfRange(index: int, at: nat)

  type Verdict = Result<(), Error>

  // ---------------------------------------------------------------------
  // Objects
  // ---------------------------------------------------------------------

  function Get(fields: seq<(string, Value)>, key: string): (r: Option<Value>)
    ensures r.Some? ==> (fields decreases to r.value)
  {
    if fields == [] then None
    else if fields[0].0 == key then
      assert (fields[0] decreases to fields[0].1);
      Some(fields[0].1)
    else Get(fields[1..], key)
  }

  /** `get_mut` followed by an assignment. */
  function Put(fields: seq<(string, Value)>, key: string, v: Value): seq<(string, Value)> {
    if fields == [] then []
    else if fields[0].0 == key then [(key, v)] + fields[1..]
    else [fields[0]] + Put(fields[1..], key, v)
  }

  lemma {:induction false} GetAfterPut(fields: seq<(string, Value)>, key: string, v: Value, other: string)
    requires Get(fields, key).Some?
    ensures Get(Put(fields, key, v), other) == if other == key then Some(v) else Get(fields, other)
    decreases |fields|
  {
    if fields[0].0 == key {
      assert Put(fields, key, v)[1..] == fields[1..];
    } else {
      assert Put(fields, key, v)[1..] == Put(fields[1..], key, v);
      GetAfterPut(fields[1..], key, v, other);
    }
  }

  /** `serde_json::from_value::<Gate>`: an object with both fields, or a pair. */
  function GateOf(v: Value): (r: Option<Gate>)
    ensures r.Some? ==> (v decreases to r.value.params)
  {
    match v
    case Object(fields) =>
      var kind, params := Get(fields, "type"), Get(fields, "params");
      if kind.Some? && kind.value.String? && params.Some? then Some(Gate(kind.value.text, params.value)) else None
    case Array(items) =>
      if |items| == 2 && items[0].String? then Some(Gate(items[0].text, items[1])) else None
    case _ => None
  }

  // ---------------------------------------------------------------------
  // Validation
  // ---------------------------------------------------------------------

  /** `qubit_index`: an integer that fits 64 bits, or none. */
  function QubitIndex(v: Value): Result<Option<int>, Error> {
    if v.Number? && v.n.index.Some? then
      if v.n.index.value < 0 then Err(Negative(v.n.index.value)) else Ok(Some(v.n.index.value))
    else
      Ok(None)
  }

  function EnsureInRange(q: int, qubits: nat, at: nat): Verdict {
    if q >= qubits then Err(OutOfRange(q, at)) else Ok(())
  }

  function RequireQubit(v: Value, qubits: nat, at: nat): Verdict {
    match QubitIndex(v)
    case Ok(Some(q)) => EnsureInRange(q, qubits, at)
    case Ok(None) => Err(NotAnIndex(at))
    case Err(Negative(q)) => Err(NegativeAt(q, at))
    case Err(e) => Err(e)
  }

  function ValidateRotation(params: Value, qubits: nat, at: nat): Verdict {
    if params.Array? then
      if params.items == [] then Err(MissingQubit(at)) else RequireQubit(params.items[0], qubits, at)
    else
      RequireQubit(params, qubits, at)
  }

  function CheckQubitValues(v: Value, at: nat, qubits: nat): Verdict
    decreases v
  {
    match v
    case Array(items) => CheckItems(items, at, qubits)
    case Number(_) =>
      (match QubitIndex(v)
       case Err(e) => Err(e)
       case Ok(Some(q)) => EnsureInRange(q, qubits, at)
       case Ok(None) => Err(NotAnIndex(at)))
    case Object(fields) =>
      (match Get(fields, "qubit")
       case Some(q) => RequireQubit(q, qubits, at)
       case None => Ok(()))
    case _ => Ok(())
  }

  function CheckItems(items: seq<Value>, at: nat, qubits: nat): Verdict
    decreases items
  {
    if items == [] then
      Ok(())
    else
      match CheckQubitValues(items[0], at, qubits)
      case Err(e) => Err(e)
      case Ok(_) => CheckItems(items[1..], at, qubits)
  }

  predicate IsRotation(kind: string) {
    kind == "RX" || kind == "RY" || kind == "RZ"
  }

  function ValidateQubitParams(gate: Gate, at: nat, qubits: nat): Verdict {
    if IsRotation(gate.kind)
    then ValidateRotation(gate.params, qubits, at)
    else CheckQubitValues(gate.params, at, qubits)
  }

  function ValidateGate(gate: Gate, at: nat, qubits: nat, supported: seq<string>): Verdict
    decreases gate.params
  {
    if gate.kind !in supported then
      Err(Unsupported(gate.kind, at))
    else if gate.kind == "IF" then
      if !gate.params.Object? then
        Err(IfNeedsObject(at))
      else
        match Get(gate.params.fields, "gate")
        case None => Err(IfMissingGate(at))
        case Some(nested) =>
          match GateOf(nested)
          case None => Err(IfInvalidGate(at))
          case Some(inner) => ValidateGate(inner, at, qubits, supported)
    else
      ValidateQubitParams(gate, at, qubits)
  }

  /** The verdict on the first gate that fails. */
  function ValidateFrom(circuit: seq<Gate>, first: nat, qubits: nat, supported: seq<string>): Verdict
    requires first <= |circuit|
    decreases |circuit| - first
  {
    if first == |circuit| then
      Ok(())
    else
      match ValidateGate(circuit[first], first, qubits, supported)
      case Err(e) => Err(e)
      case Ok(_) => ValidateFrom(circuit, first + 1, qubits, supported)
  }

  method ValidateCircuitLogic(circuit: seq<Gate>, qubits: nat, supported: seq<string>) returns (verdict: Verdict)
    ensures verdict.Ok? <==> forall i :: 0 <= i < |circuit| ==> ValidateGate(circuit[i], i, qubits, supported).Ok?
    ensures verdict == ValidateFrom(circuit, 0, qubits, supported)
  {
    for i := 0 to |circuit|
      invariant forall j :: 0 <= j < i ==> ValidateGate(circuit[j], j, qubits, supported).Ok?
      invariant ValidateFrom(circuit, 0, qubits, supported) == ValidateFrom(circuit, i, qubits, supported)
    {
      var gate := ValidateGate(circuit[i], i, qubits, supported);
      if gate.Err? {
        return gate;
      }
    }
    return Ok(());
  }

  // ---------------------------------------------------------------------
  // Normalization
  // ---------------------------------------------------------------------

  /** A one-element array becomes its element; nested gates are normalized inside. */
  function NormalizeValue(params: Value): Value
    decreases params
  {
    if params.Array? && |params.items| == 1 then
      params.items[0]
    else if params.Object? then
      match Get(params.fields, "gate")
      case Some(Object(nested)) =>
        (match Get(nested, "params")
         case Some(inner) => Object(Put(params.fields, "gate", Object(Put(nested, "params", NormalizeValue(inner)))))
         case None => params)
      case _ => params
    else
      params
  }

  function NormalizeGate(gate: Gate): Gate {
    gate.(params := NormalizeValue(gate.params))
  }

  method NormalizeGateParams(circuit: array<Gate>)
    modifies circuit
    ensures forall i :: 0 <= i < circuit.Length ==> circuit[i] == NormalizeGate(old(circuit[i]))
  {
    for i := 0 to circuit.Length
      invariant forall j :: 0 <= j < i ==> circuit[j] == NormalizeGate(old(circuit[j]))
      invariant forall j :: i <= j < circuit.Length ==> circuit[j] == old(circuit[j])
    {
      circuit[i] := circuit[i].(params := NormalizeValue(circuit[i].params));
    }
  }

  // ---------------------------------------------------------------------
  // Validation survives normalization
  // ---------------------------------------------------------------------

  lemma OneItem(v: Value, at: nat, qubits: nat)
    requires v.Array? && |v.items| == 1
    ensures CheckQubitValues(v, at, qubits).Ok? <==> CheckQubitValues(v.items[0], at, qubits).Ok?
  {
    assert v.items[1..] == [];
    assert CheckItems([], at, qubits) == Ok(());
  }

  lemma NormalizedObject(params: Value)
    requires params.Object?
    ensures NormalizeValue(params).Object?
    ensures Get(NormalizeValue(params).fields, "qubit") == Get(params.fields, "qubit")
  {
    hide Put;
    var nested := Get(params.fields, "gate");
    if nested.Some? && nested.value.Object? {
      var inner := Get(nested.value.fields, "params");
      if inner.Some? {
        GetAfterPut(params.fields, "gate", Object(Put(nested.value.fields, "params", NormalizeValue(inner.value))), "qubit");
      }
    }
  }

  /**
   The refusals that normalization lifts: a rotation or an IF whose params are
   wrapped once too often, or an IF around such a gate.
   */
  predicate Rewrapped(gate: Gate)
    decreases gate.params
  {
    || (gate.params.Array? && |gate.params.items| == 1 && (gate.kind == "IF" || (IsRotation(gate.kind) && gate.params.items[0].Array?)))
    || (gate.kind == "IF" && gate.params.Object?
        && match Get(gate.params.fields, "gate")
           case Some(nested) => nested.Object? && GateOf(nested).Some? && Rewrapped(GateOf(nested).value)
           case None => false)
  }

  lemma SimpleGateExactly(gate: Gate, at: nat, qubits: nat)
    requires gate.kind != "IF"
    ensures ValidateQubitParams(gate, at, qubits).Ok? <==> ValidateQubitParams(NormalizeGate(gate), at, qubits).Ok? && !Rewrapped(gate)
  {
    if gate.params.Array? && |gate.params.items| == 1 {
      OneItem(gate.params, at, qubits);
    } else if gate.params.Object? {
      NormalizedObject(gate.params);
    }
  }

  /** What normalization makes of the value nested in an IF. */
  function NormalizeNested(nested: Value): Value {
    match nested
    case Object(fields) =>
      (match Get(fields, "params")
       case Some(inner) => Object(Put(fields, "params", NormalizeValue(inner)))
       case None => nested)
    case _ => nested
  }

  lemma NestedValue(params: Value)
    requires params.Object? && Get(params.fields, "gate").Some?
    ensures NormalizeValue(params).Object?
    ensures Get(NormalizeValue(params).fields, "gate") == Some(NormalizeNested(Get(params.fields, "gate").value))
  {
    hide Put;
    var nested := Get(params.fields, "gate").value;
    if nested.Object? && Get(nested.fields, "params").Some? {
      GetAfterPut(params.fields, "gate", NormalizeNested(nested), "gate");
    }
  }

  lemma NestedGate(nested: Value)
    ensures GateOf(NormalizeNested(nested)).Some? <==> GateOf(nested).Some?
    ensures GateOf(nested).Some? ==>
              GateOf(NormalizeNested(nested)).value == if nested.Object? then NormalizeGate(GateOf(nested).value) else GateOf(nested).value
  {
    hide Put;
    if nested.Object? && Get(nested.fields, "params").Some? {
      var normal := NormalizeValue(Get(nested.fields, "params").value);
      GetAfterPut(nested.fields, "params", normal, "params");
      GetAfterPut(nested.fields, "params", normal, "type");
    }
  }

  lemma NothingNested(params: Value)
    requires params.Object? && Get(params.fields, "gate").None?
    ensures NormalizeValue(params) == params
  {
  }

  /**
   A gate is accepted exactly if its normal form is and it was not wrapped once
   too often: normalization keeps every acceptance, at any IF depth, and lifts
   only the refusals of rewrapped gates.
   */
  lemma {:induction false} AcceptedExactly(gate: Gate, at: nat, qubits: nat, supported: seq<string>)
    ensures ValidateGate(gate, at, qubits, supported).Ok? <==>
              ValidateGate(NormalizeGate(gate), at, qubits, supported).Ok? && !Rewrapped(gate)
    decreases gate.params
  {
    if gate.kind != "IF" {
      SimpleGateExactly(gate, at, qubits);
    } else if gate.params.Object? {
      var nested := Get(gate.params.fields, "gate");
      if nested.None? {
        NothingNested(gate.params);
      } else {
        NestedValue(gate.params);
        NestedGate(nested.value);
        hide NormalizeValue, NormalizeNested;
        if GateOf(nested.value).Some? && nested.value.Object? {
          AcceptedExactly(GateOf(nested.value).value, at, qubits, supported);
        }
      }
    }
  }

  /** A circuit is accepted exactly if its normal form is and no gate was rewrapped. */
  lemma CircuitAcceptedExactly(circuit: seq<Gate>, normalized: seq<Gate>, qubits: nat, supported: seq<string>)
    requires |normalized| == |circuit|
    requires forall i :: 0 <= i < |circuit| ==> normalized[i] == NormalizeGate(circuit[i])
    ensures (forall i :: 0 <= i < |circuit| ==> ValidateGate(circuit[i], i, qubits, supported).Ok?) <==>
              forall i :: 0 <= i < |circuit| ==> ValidateGate(normalized[i], i, qubits, supported).Ok? && !Rewrapped(circuit[i])
  {
    hide ValidateGate, NormalizeGate, Rewrapped;
    forall i | 0 <= i < |circuit|
      ensures ValidateGate(circuit[i], i, qubits, supported).Ok? <==> ValidateGate(normalized[i], i, qubits, supported).Ok? && !Rewrapped(circuit[i])
    {
      AcceptedExactly(circuit[i], i, qubits, supported);
    }
  }

  /** Both kinds of rewrapping occur: a refused gate whose normal form is accepted. */
  lemma NormalizationCanRepair()
    ensures var zero := Number(JsonNumber(Some(0), None));
            var rotation := Gate("RX", Array([Array([zero])]));
      && ValidateGate(rotation, 0, 1, ["RX"]).Err?
      && ValidateGate(NormalizeGate(rotation), 0, 1, ["RX"]).Ok?
    ensures var zero := Number(JsonNumber(Some(0), None));
            var params := Object([("gate", Array([String("H"), zero]))]);
            var conditional := Gate("IF", Array([params]));
      && ValidateGate(conditional, 0, 1, ["IF", "H"]).Err?
      && ValidateGate(NormalizeGate(conditional), 0, 1, ["IF", "H"]).Ok?
  {
  }

  // ---------------------------------------------------------------------
  // What acceptance means
  // ---------------------------------------------------------------------

  /** The value at the end of a path through arrays. */
  function Along(v: Value, path: seq<nat>): Option<Value>
    decreases |path|
  {
    if path == [] then Some(v)
    else if v.Array? && path[0] < |v.items| then Along(v.items[path[0]], path[1..])
    else None
  }

  predicate ValidIndex(v: Value, qubits: nat) {
    v.Number? && v.n.index.Some? && 0 <= v.n.index.value < qubits
  }

  /** A number is a qubit below the count; so is the `qubit` field of an object. */
  predicate GoodEnd(v: Value, qubits: nat) {
    && (v.Number? ==> ValidIndex(v, qubits))
    && (v.Object? && Get(v.fields, "qubit").Some? ==> ValidIndex(Get(v.fields, "qubit").value, qubits))
  }

  ghost predicate GoodPaths(v: Value, qubits: nat) {
    forall path: seq<nat> :: Along(v, path).Some? ==> GoodEnd(Along(v, path).value, qubits)
  }

  lemma {:induction false} CheckMeansGoodPaths(v: Value, at: nat, qubits: nat)
    ensures CheckQubitValues(v, at, qubits).Ok? <==> GoodPaths(v, qubits)
    decreases v, 1
  {
    if v.Array? {
      ItemsMeanGoodPaths(v.items, at, qubits);
      ArrayPaths(v, qubits);
    } else {
      EndPaths(v, qubits);
    }
  }

  lemma EndPaths(v: Value, qubits: nat)
    requires !v.Array?
    ensures GoodPaths(v, qubits) <==> GoodEnd(v, qubits)
  {
    assert Along(v, []) == Some(v);
  }

  lemma ArrayPaths(v: Value, qubits: nat)
    requires v.Array?
    ensures GoodPaths(v, qubits) <==> forall i :: 0 <= i < |v.items| ==> GoodPaths(v.items[i], qubits)
  {
    if GoodPaths(v, qubits) {
      forall i, path: seq<nat> | 0 <= i < |v.items| && Along(v.items[i], path).Some?
        ensures GoodEnd(Along(v.items[i], path).value, qubits)
      {
        assert ([i] + path)[1..] == path;
        assert Along(v, [i] + path) == Along(v.items[i], path);
      }
    }
    if forall i :: 0 <= i < |v.items| ==> GoodPaths(v.items[i], qubits) {
      forall path: seq<nat> | Along(v, path).Some? ensures GoodEnd(Along(v, path).value, qubits) {
        if path != [] {
          assert GoodPaths(v.items[path[0]], qubits);
          assert Along(v.items[path[0]], path[1..]).Some?;
        }
      }
    }
  }

  lemma {:induction false} ItemsMeanGoodPaths(items: seq<Value>, at: nat, qubits: nat)
    ensures CheckItems(items, at, qubits).Ok? <==> forall i :: 0 <= i < |items| ==> GoodPaths(items[i], qubits)
    decreases items, 0
  {
    hide GoodPaths;
    if items != [] {
      CheckMeansGoodPaths(items[0], at, qubits);
      ItemsMeanGoodPaths(items[1..], at, qubits);
      assert forall i :: 0 < i < |items| ==> items[i] == items[1..][i - 1];
    }
  }

  /** The innermost gate, if the IFs around it are well formed and all kinds supported. */
  function Innermost(gate: Gate, supported: seq<string>): Option<Gate>
    decreases gate.params
  {
    if gate.kind !in supported then None
    else if gate.kind != "IF" then Some(gate)
    else if !gate.params.Object? || Get(gate.params.fields, "gate").None? then None
    else
      match GateOf(Get(gate.params.fields, "gate").value)
      case None => None
      case Some(inner) => Innermost(inner, supported)
  }

  /** A rotation's first parameter is its qubit; any other gate has only qubits. */
  ghost predicate GoodParams(gate: Gate, qubits: nat) {
    if IsRotation(gate.kind) then
      if gate.params.Array?
      then gate.params.items != [] && ValidIndex(gate.params.items[0], qubits)
      else ValidIndex(gate.params, qubits)
    else
      GoodPaths(gate.params, qubits)
  }

  /**
   A gate is accepted exactly if its nesting is well formed and every qubit of
   the innermost gate is below the qubit count, however deep it sits.
   */
  lemma {:induction false} AcceptedMeansInRange(gate: Gate, at: nat, qubits: nat, supported: seq<string>)
    ensures ValidateGate(gate, at, qubits, supported).Ok? <==>
              Innermost(gate, supported).Some? && GoodParams(Innermost(gate, supported).value, qubits)
    decreases gate.params
  {
    hide GoodPaths, CheckQubitValues;
    if gate.kind in supported {
      if gate.kind != "IF" {
        CheckMeansGoodPaths(gate.params, at, qubits);
      } else if gate.params.Object? && Get(gate.params.fields, "gate").Some? {
        var inner := GateOf(Get(gate.params.fields, "gate").value);
        if inner.Some? {
          AcceptedMeansInRange(inner.value, at, qubits, supported);
        }
      }
    }
  }

  /** Only a rotation carries a second parameter that is no qubit: its angle. */
  lemma AnglesOnlyForRotations(kind: string, qubit: nat, angle: JsonNumber, at: nat, qubits: nat, supported: seq<string>)
    requires kind in supported && qubit < qubits && angle.index.None?
    ensures var params := Array([Number(JsonNumber(Some(qubit), None)), Number(angle)]);
      ValidateGate(Gate(kind, params), at, qubits, supported).Ok? <==> kind == "RX" || kind == "RY" || kind == "RZ"
  {
    var items := [Number(JsonNumber(Some(qubit), None)), Number(angle)];
    assert items[1..] == [Number(angle)] && items[1..][1..] == [];
    assert CheckQubitValues(items[0], at, qubits).Ok?;
    assert CheckQubitValues(items[1], at, qubits).Err?;
    assert CheckItems(items[1..], at, qubits).Err?;
    assert CheckItems(items, at, qubits).Err?;
  }

  // ---------------------------------------------------------------------
  // What normalization changes
  // ---------------------------------------------------------------------

  /** A one-element array is unwrapped once. */
  function Unwrapped(params: Value): Value {
    if params.Array? && |params.items| == 1 then params.items[0] else params
  }

  /** The params of `kinds[0]` around `kinds[1]` and so on, around `params`. */
  function Nested(kinds: seq<string>, params: Value): Value {
    if kinds == [] then params
    else Object([("gate", Object([("type", String(kinds[0])), ("params", Nested(kinds[1..], params))]))])
  }

  /** At whatever depth, the innermost params are unwrapped once and nothing around them changes. */
  lemma {:induction false} NestedIsUnwrapped(kinds: seq<string>, params: Value)
    requires !params.Object?
    ensures NormalizeValue(Nested(kinds, params)) == Nested(kinds, Unwrapped(params))
    decreases |kinds|
  {
    if kinds != [] {
      var inner := Nested(kinds[1..], params);
      var gate := [("type", String(kinds[0])), ("params", inner)];
      NestedIsUnwrapped(kinds[1..], params);
      assert gate[1..] == [("params", inner)];
      assert Get(gate, "params") == Some(inner);
      assert Put(gate, "params", NormalizeValue(inner)) == [("type", String(kinds[0])), ("params", NormalizeValue(inner))];
    }
  }

  function Names(fields: seq<(string, Value)>): seq<string> {
    if fields == [] then [] else [fields[0].0] + Names(fields[1..])
  }

  lemma {:induction false} PutKeepsNames(fields: seq<(string, Value)>, key: string, v: Value)
    ensures Names(Put(fields, key, v)) == Names(fields)
    decreases |fields|
  {
    if fields != [] {
      PutKeepsNames(fields[1..], key, v);
      if fields[0].0 == key {
        assert Put(fields, key, v)[1..] == fields[1..];
      } else {
        assert Put(fields, key, v)[1..] == Put(fields[1..], key, v);
      }
    }
  }

  /** Of an object only the params of the gate in it can change; its members keep their names and places. */
  lemma OnlyNestedParamsChange(fields: seq<(string, Value)>, key: string)
    ensures NormalizeValue(Object(fields)).Object? && Names(NormalizeValue(Object(fields)).fields) == Names(fields)
    ensures key != "gate" ==> Get(NormalizeValue(Object(fields)).fields, key) == Get(fields, key)
    ensures var nested := Get(fields, "gate");
      nested.Some? && nested.value.Object? ==>
        var normal := Get(NormalizeValue(Object(fields)).fields, "gate");
        && normal.Some? && normal.value.Object? && Names(normal.value.fields) == Names(nested.value.fields)
        && (key != "params" ==> Get(normal.value.fields, key) == Get(nested.value.fields, key))
  {
    hide Put, Names;
    var nested := Get(fields, "gate");
    if nested.Some? && nested.value.Object? {
      var inner := Get(nested.value.fields, "params");
      if inner.Some? {
        var gate := Put(nested.value.fields, "params", NormalizeValue(inner.value));
        GetAfterPut(nested.value.fields, "params", NormalizeValue(inner.value), key);
        PutKeepsNames(nested.value.fields, "params", NormalizeValue(inner.value));
        GetAfterPut(fields, "gate", Object(gate), key);
        GetAfterPut(fields, "gate", Object(gate), "gate");
        PutKeepsNames(fields, "gate", Object(gate));
      }
    }
  }
}
