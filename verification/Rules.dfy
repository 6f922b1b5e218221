/** Deterministic rules: when a condition matches a reading and what an action may do to a
    device of a given kind. */
module Rules {
  import opened Prelude
  import opened Schema

  /** Strict comparison: numbers only compare with numbers, and any two values by equality. */
  predicate Matches(condition: Condition, unit: string, actual: Value) {
    && condition.unit == unit
    && if condition.operator == "eq" then actual == condition.value
       else
         && actual.Number? && condition.value.Number?
         && match condition.operator
            case "gt" => actual.n > condition.value.n
            case "gte" => actual.n >= condition.value.n
            case "lt" => actual.n < condition.value.n
            case "lte" => actual.n <= condition.value.n
            case _ => false
  }

  /** What a condition asks of a reading, in plain arithmetic: the same unit, and either the
      very value for equality or two numbers in the order the operator names. */
  predicate Satisfies(unit: string, actual: Value, c: Condition) {
    && unit == c.unit
    && (|| (c.operator == "eq" && actual == c.value)
        || (actual.Number? && c.value.Number? && NumbersOrdered(actual.n, c.operator, c.value.n)))
  }

  predicate NumbersOrdered(x: real, operator: string, y: real) {
    || (operator == "gt" && x - y > 0.0)
    || (operator == "gte" && x - y >= 0.0)
    || (operator == "lt" && y - x > 0.0)
    || (operator == "lte" && y - x >= 0.0)
  }

  lemma MatchesIffSatisfies(c: Condition, unit: string, actual: Value)
    ensures Matches(c, unit, actual) <==> Satisfies(unit, actual, c)
  {
  }

  datatype ActionError = NotAllowed | AngleOutOfRange

  function AllowedForKind(kind: string): set<string> {
    if kind == "led" || kind == "relay" then {"on", "off"}
    else if kind == "servo" then {"set-angle", "off"}
    else if kind == "buzzer" then {"beep", "off"}
    else {}
  }

  function ApplyAction(kind: string, current: DeviceState, action: Action, at: Time): Result<DeviceState, ActionError> {
    if action.command !in AllowedForKind(kind) then Err(NotAllowed)
    else if action.command == "set-angle" && (action.value.None? || action.value.value < 0.0 || action.value.value > 180.0) then
      Err(AngleOutOfRange)
    else
      var state := current.(lastCommandAt := Some(at));
      Ok(if action.command == "set-angle" then state.(status := "on", angle := action.value)
         else if action.command == "beep" then state.(status := "off")
         else state.(status := action.command))
  }
}
