/** Documents as the source reads them from its document database, and the rule condition
    evaluator that `ticketAssignment.ts` and `ticketEscalation.ts` each define, word for word. */
module Documents {
  import opened Wrappers
  import opened Text

  /** A field value of a document. Arrays are compared by identity in JavaScript, and an array read
      from a ticket is never the very array held by a rule, so `===` is false on two lists. */
  datatype Value =
    | Undefined
    | Null
    | Bool(b: bool)
    | Num(n: int)
    | Str(s: string)
    | List(items: seq<Value>)

  /** A document: field name to value; an absent field reads as `undefined`. */
  type Doc = map<string, Value>

  function Field(d: Doc, name: string): Value {
    if name in d then d[name] else Undefined
  }

  /** JavaScript truthiness, the test behind `x || y`, `if (x)` and `x && ...`. */
  predicate Truthy(v: Value) {
    match v
    case Undefined => false
    case Null => false
    case Bool(b) => b
    case Num(n) => n != 0
    case Str(s) => s != ""
    case List(_) => true
  }

  /** `x || y`: one of the operands, truthy exactly when either operand is. */
  function Or(x: Value, y: Value): (r: Value)
    ensures r == x || r == y
    ensures Truthy(r) <==> Truthy(x) || Truthy(y)
    ensures Truthy(x) ==> r == x
    ensures !Truthy(x) ==> r == y
  {
    if Truthy(x) then x else y
  }

  /** `a === b` (and the SameValueZero of `Array.prototype.includes`, which agrees with it here). */
  predicate StrictEquals(a: Value, b: Value) {
    match (a, b)
    case (Undefined, Undefined) => true
    case (Null, Null) => true
    case (Bool(x), Bool(y)) => x == y
    case (Num(x), Num(y)) => x == y
    case (Str(x), Str(y)) => x == y
    case _ => false
  }

  /** `items.includes(v)`. */
  predicate ListIncludes(items: seq<Value>, v: Value) {
    exists i :: 0 <= i < |items| && StrictEquals(items[i], v)
  }

  /** `parts.join(',')`. */
  function Join(parts: seq<string>): string {
    if parts == [] then "" else if |parts| == 1 then parts[0] else parts[0] + "," + Join(parts[1..])
  }

  /** `String(v)`; inside an array `undefined` and `null` print as nothing. */
  function ToJsString(v: Value): string {
    match v
    case Undefined => "undefined"
    case Null => "null"
    case Bool(b) => if b then "true" else "false"
    case Num(n) => IntToString(n)
    case Str(s) => s
    case List(items) =>
      Join(seq(|items|, i requires 0 <= i < |items| =>
        if items[i].Undefined? || items[i].Null? then "" else ToJsString(items[i])))
  }

  /** `Number(s)` on the integer numerals; `None` is `NaN`. */
  function NumberOfString(s: string): Option<int> {
    var t := Trim(s);
    if t == "" then Some(0)
    else if AllDigits(t) then Some(DigitsValue(t))
    else if |t| > 1 && (t[0] == '-' || t[0] == '+') && AllDigits(t[1..]) then
      var m: int := DigitsValue(t[1..]);
      Some(if t[0] == '-' then -m else m)
    else None
  }

  /** `Number(v)`; `None` is `NaN`. An array converts through its string. */
  function ToNumber(v: Value): Option<int> {
    match v
    case Undefined => None
    case Null => Some(0)
    case Bool(b) => Some(if b then 1 else 0)
    case Num(n) => Some(n)
    case Str(s) => NumberOfString(s)
    case List(_) => NumberOfString(ToJsString(v))
  }

  /** `v + 1` on a value that may not be a number. */
  function PlusOne(v: Value): (r: Value)
    ensures v.Num? ==> r == Num(v.n + 1)
  {
    match v
    case Num(n) => Num(n + 1)
    case Undefined => Num(1) // NaN in JavaScript; never reached through `(x || 0) + 1`
    case Null => Num(1)
    case Bool(b) => Num(if b then 2 else 1)
    case Str(s) => Str(s + "1")
    case List(_) => Str(ToJsString(v) + "1")
  }

  /** `(v || 0) + 1`, the escalation counter update. */
  function IncrementCount(v: Value): (r: Value)
    ensures !Truthy(v) ==> r == Num(1)
    ensures v.Num? ==> r == Num(v.n + 1)
  {
    PlusOne(Or(v, Num(0)))
  }

  datatype Operator =
    | Equals
    | NotEquals
    | Contains
    | GreaterThan
    | LessThan
    | In
    | NotIn
    | UnknownOperator(name: string)

  /** An assignment or escalation condition: `ticket[field] <operator> value`. */
  datatype Condition = Condition(id: string, field: string, operator: Operator, value: Value)

  /** `evaluateCondition(data, condition)`. */
  predicate EvaluateCondition(data: Doc, c: Condition) {
    var value := Field(data, c.field);
    match c.operator
    case Equals => StrictEquals(value, c.value)
    case NotEquals => !StrictEquals(value, c.value)
    case Contains => Includes(ToJsString(value), ToJsString(c.value))
    case GreaterThan =>
      var (x, y) := (ToNumber(value), ToNumber(c.value));
      x.Some? && y.Some? && x.value > y.value
    case LessThan =>
      var (x, y) := (ToNumber(value), ToNumber(c.value));
      x.Some? && y.Some? && x.value < y.value
    case In => c.value.List? && ListIncludes(c.value.items, value)
    case NotIn => c.value.List? && !ListIncludes(c.value.items, value)
    case UnknownOperator(_) => false
  }

  /** `conditions.every(c => evaluateCondition(data, c))`. */
  predicate AllConditionsHold(data: Doc, conditions: seq<Condition>) {
    forall i :: 0 <= i < |conditions| ==> EvaluateCondition(data, conditions[i])
  }

  /** `not_equals` is the negation of `equals` on the same field and value. */
  lemma NotEqualsNegatesEquals(data: Doc, id: string, field: string, v: Value)
    ensures EvaluateCondition(data, Condition(id, field, NotEquals, v))
        == !EvaluateCondition(data, Condition(id, field, Equals, v))
  {
  }

  /** `in` and `not_in` hold only against a list, and against a list exactly one of them holds;
      an operator the evaluator does not know never holds. */
  lemma MembershipOperators(data: Doc, id: string, field: string, v: Value, name: string)
    ensures EvaluateCondition(data, Condition(id, field, In, v))
        <==> v.List? && exists i :: 0 <= i < |v.items| && StrictEquals(v.items[i], Field(data, field))
    ensures !v.List? ==> !EvaluateCondition(data, Condition(id, field, NotIn, v))
    ensures v.List? ==> (EvaluateCondition(data, Condition(id, field, In, v))
                         <==> !EvaluateCondition(data, Condition(id, field, NotIn, v)))
    ensures !EvaluateCondition(data, Condition(id, field, UnknownOperator(name), v))
  {
  }

  /** `greater_than` and `less_than` never both hold, and neither holds when a side is `NaN`. */
  lemma ComparisonsExclusive(data: Doc, id: string, field: string, v: Value)
    ensures !(EvaluateCondition(data, Condition(id, field, GreaterThan, v))
              && EvaluateCondition(data, Condition(id, field, LessThan, v)))
    ensures ToNumber(Field(data, field)).None? || ToNumber(v).None? ==>
              !EvaluateCondition(data, Condition(id, field, GreaterThan, v))
              && !EvaluateCondition(data, Condition(id, field, LessThan, v))
  {
  }

  lemma StrictEqualsSameString(a: Value, b: Value)
    requires StrictEquals(a, b)
    ensures ToJsString(a) == ToJsString(b)
  {
  }

  /** Whatever `equals` accepts, `contains` accepts too. */
  lemma EqualsImpliesContains(data: Doc, id: string, field: string, v: Value)
    requires EvaluateCondition(data, Condition(id, field, Equals, v))
    ensures EvaluateCondition(data, Condition(id, field, Contains, v))
  {
    var s := ToJsString(Field(data, field));
    StrictEqualsSameString(Field(data, field), v);
    assert s[0..|s|] == s;
    assert OccursAt(s, ToJsString(v), 0);
  }

  lemma TrimKeepsNonBlankEnds(s: string)
    requires s != [] && !IsJsWhitespace(s[0]) && !IsJsWhitespace(s[|s| - 1])
    ensures Trim(s) == s
  {
  }

  /** `Number(String(n)) === n`: the numeric reading of a rendered integer gives it back. */
  lemma NumberOfRenderedInt(n: int)
    ensures ToNumber(Str(ToJsString(Num(n)))) == Some(n)
  {
    assert ToJsString(Num(n)) == IntToString(n);
    NumberOfIntString(n);
  }

  lemma NumberOfIntString(n: int)
    ensures NumberOfString(IntToString(n)) == Some(n)
  {
    if n >= 0 {
      NumberOfNatString(n);
    } else {
      NumberOfNegString(-n);
      assert IntToString(n) == "-" + NatToString(-n);
    }
  }

  lemma NumberOfNatString(n: nat)
    ensures NumberOfString(NatToString(n)) == Some(n)
  {
    NatToStringRoundTrip(n);
    NumberOfDigits(NatToString(n), n);
  }

  lemma NumberOfNegString(m: nat)
    ensures NumberOfString("-" + NatToString(m)) == Some(-(m as int))
  {
    NatToStringRoundTrip(m);
    NumberOfNegative(NatToString(m), m);
  }

  /** A run of digits reads as the number it denotes. */
  lemma NumberOfDigits(d: string, m: nat)
    requires d != [] && AllDigits(d) && DigitsValue(d) == m
    ensures NumberOfString(d) == Some(m)
  {
    assert IsDigit(d[0]) && IsDigit(d[|d| - 1]);
    TrimKeepsNonBlankEnds(d);
  }

  /** A minus sign followed by a run of digits reads as the negated number. */
  lemma NumberOfNegative(d: string, m: nat)
    requires d != [] && AllDigits(d) && DigitsValue(d) == m
    ensures NumberOfString("-" + d) == Some(-(m as int))
  {
    var s := "-" + d;
    assert s[1..] == d && s[0] == '-';
    assert IsDigit(s[|s| - 1]);
    TrimKeepsNonBlankEnds(s);
    assert !AllDigits(s) by { assert !IsDigit(s[0]); }
  }

  /** A rule with no conditions applies to every ticket. */
  lemma NoConditionsAlwaysHold(data: Doc)
    ensures AllConditionsHold(data, [])
  {
  }
}
