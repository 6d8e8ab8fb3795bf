/** The workflow engine: what a condition's field refers to, how values compare, and which
    steps an evaluation skips. */
module Engine {
  import opened Common
  import opened Values
  import opened Dotted
  import opened Workflows

  datatype Subscriber = Subscriber(data: map<string, Value>, locale: string, email: string, phone: string)

  datatype Notice = Notice(seen: bool, read: bool)

  /** What the conditions of a run are evaluated against. */
  datatype Scope = Scope(subscriber: Subscriber, payload: map<string, Value>, notice: Option<Notice>)

  /** What conditions see in a running handler: the notification is loaded, and seen if it
      has been read; the payload has come through a JSON task, the subscriber's data out of
      the database. The locale may be empty: the update endpoint writes the one it is given. */
  ghost predicate AtRunTime(scope: Scope) {
    && scope.notice.Some? && (scope.notice.value.read ==> scope.notice.value.seen)
    && (forall k :: k in scope.payload ==> FromJson(scope.payload[k]))
    && (forall k :: k in scope.subscriber.data ==> FromStore(scope.subscriber.data[k]))
  }

  /** Text formatting and number scanning, which are the standard library's. */
  datatype Text = Text(show: Value -> string, scan: string -> Option<Number>)

  // ---------------------------------------------------------------------------------
  // Fields
  // ---------------------------------------------------------------------------------

  /** The value under a list of keys: Nil from the first missing key or anything that is not
      a plain object on. */
  function Lookup(v: Value, keys: seq<string>): Value {
    if keys == [] then v
    else if v.Obj? && !v.stored && keys[0] in v.fields then Lookup(v.fields[keys[0]], keys[1..])
    else Nil
  }

  /** The value a reader of the document would find under the keys. */
  function Find(v: Value, keys: seq<string>): Value {
    if keys == [] then v
    else if v.Obj? && keys[0] in v.fields then Find(v.fields[keys[0]], keys[1..])
    else Nil
  }

  /** No object on the way down is of a driver's type. */
  predicate PlainPath(v: Value, keys: seq<string>) {
    keys == [] || !v.Obj? || (!v.stored && (keys[0] in v.fields ==> PlainPath(v.fields[keys[0]], keys[1..])))
  }

  /** A lookup finds what is there exactly along plain objects, and nothing otherwise. */
  lemma {:induction false} LookupReaches(v: Value, keys: seq<string>)
    ensures Lookup(v, keys) == if PlainPath(v, keys) then Find(v, keys) else Nil
  {
    if keys != [] && v.Obj? && keys[0] in v.fields {
      LookupReaches(v.fields[keys[0]], keys[1..]);
    }
  }

  lemma {:induction false} JsonIsPlain(v: Value, keys: seq<string>)
    requires FromJson(v)
    ensures PlainPath(v, keys)
  {
    if keys != [] && v.Obj? && keys[0] in v.fields {
      JsonIsPlain(v.fields[keys[0]], keys[1..]);
    }
  }

  /** An object holding one value under a list of keys. */
  function Nested(keys: seq<string>, v: Value): Value {
    if keys == [] then v else Obj(map[keys[0] := Nested(keys[1..], v)], false)
  }

  lemma {:induction false} LookupNested(keys: seq<string>, v: Value)
    ensures Lookup(Nested(keys, v), keys) == v
  {
    if keys != [] {
      LookupNested(keys[1..], v);
    }
  }

  lemma {:induction false} LookupNil(keys: seq<string>)
    ensures Lookup(Nil, keys) == Nil
  {
  }

  lemma {:induction false} LookupConcat(v: Value, p: seq<string>, q: seq<string>)
    ensures Lookup(v, p + q) == Lookup(Lookup(v, p), q)
  {
    if p == [] {
      assert p + q == q;
    } else if v.Obj? && !v.stored && p[0] in v.fields {
      LookupConcat(v.fields[p[0]], p[1..], q);
      assert (p + q)[1..] == p[1..] + q;
    } else {
      LookupNil(q);
    }
  }

  method ResolveMapField(path: string, data: map<string, Value>) returns (r: Value)
    ensures r == Lookup(Obj(data, false), Split(path))
  {
    var parts := Split(path);
    r := Obj(data, false);
    for i := 0 to |parts|
      invariant Lookup(Obj(data, false), parts) == Lookup(r, parts[i..])
    {
      assert parts[i..][0] == parts[i] && parts[i..][1..] == parts[i + 1..];
      if !r.Obj? || r.stored || parts[i] !in r.fields {
        return Nil;
      }
      r := r.fields[parts[i]];
    }
  }

  /** A path cut at its first dot. */
  function Cut(s: string): Option<(string, string)> {
    var i := Dot(s);
    if i == |s| then None else Some((s[..i], s[i + 1..]))
  }

  lemma CutAtDot(head: string, rest: string)
    requires DotFree(head)
    ensures Cut(head + "." + rest) == Some((head, rest)) && Cut(head) == None
  {
    DotAt(head, rest);
    var s := head + "." + rest;
    assert s[..|head|] == head && s[|head| + 1..] == rest;
  }

  function SubscriberField(path: string, sub: Subscriber): Value {
    match Cut(path)
    case Some((head, rest)) =>
      if head == "data" then Lookup(Obj(sub.data, false), Split(rest))
      else if head == "locale" then Str(sub.locale)
      else if head == "email" then Str(sub.email)
      else if head == "phone" then Str(sub.phone)
      else Nil
    case None =>
      if path == "data" then Obj(sub.data, false)
      else if path == "locale" then Str(sub.locale)
      else if path == "email" then Str(sub.email)
      else if path == "phone" then Str(sub.phone)
      else Nil
  }

  function StepField(path: string, notice: Option<Notice>): Value {
    match (notice, Cut(path))
    case (Some(n), Some((_, rest))) =>
      if rest == "seen" then Bool(n.seen) else if rest == "read" then Bool(n.read) else Nil
    case _ => Nil
  }

  /** What a field refers to. */
  function FieldValue(field: string, scope: Scope): Value {
    match Cut(field)
    case None => Nil
    case Some((head, rest)) =>
      if head == "subscriber" then SubscriberField(rest, scope.subscriber)
      else if head == "payload" then Lookup(Obj(scope.payload, false), Split(rest))
      else if head == "steps" then StepField(rest, scope.notice)
      else Nil
  }

  method ResolveSubscriberField(path: string, sub: Subscriber) returns (r: Value)
    ensures r == SubscriberField(path, sub)
    ensures forall keys | keys != [] && AllDotFree(keys) && path == "data." + Join(keys) ::
      r == Lookup(Obj(sub.data, false), keys)
    ensures path == "data" ==> r == Obj(sub.data, false)
  {
    forall keys | keys != [] && AllDotFree(keys) && path == "data." + Join(keys)
      ensures SubscriberField(path, sub) == Lookup(Obj(sub.data, false), keys)
    {
      DataPath(keys, sub);
    }
    SubscriberNames(sub);
    var cut := Cut(path);
    match if cut.Some? then cut.value.0 else path {
      case "data" =>
        if cut.Some? {
          r := ResolveMapField(cut.value.1, sub.data);
        } else {
          r := Obj(sub.data, false);
        }
      case "locale" => r := Str(sub.locale);
      case "email" => r := Str(sub.email);
      case "phone" => r := Str(sub.phone);
      case _ => r := Nil;
    }
  }

  method ResolveField(field: string, scope: Scope) returns (r: Value)
    ensures r == FieldValue(field, scope)
    ensures forall keys | keys != [] && AllDotFree(keys) && field == "payload." + Join(keys) ::
      r == Lookup(Obj(scope.payload, false), keys)
    ensures forall keys | keys != [] && AllDotFree(keys) && field == "subscriber.data." + Join(keys) ::
      r == Lookup(Obj(scope.subscriber.data, false), keys)
    ensures DotFree(field) ==> r == Nil
  {
    if DotFree(field) { CutAtDot(field, ""); }
    forall keys | keys != [] && AllDotFree(keys)
        && (field == "payload." + Join(keys) || field == "subscriber.data." + Join(keys))
      ensures field == "payload." + Join(keys) ==> FieldValue(field, scope) == Lookup(Obj(scope.payload, false), keys)
      ensures field == "subscriber.data." + Join(keys) ==>
        FieldValue(field, scope) == Lookup(Obj(scope.subscriber.data, false), keys)
    {
      DottedFieldIsLookup(keys, scope);
    }
    var cut := Cut(field);
    if cut.None? {
      return Nil;
    }
    match cut.value.0 {
      case "subscriber" => r := ResolveSubscriberField(cut.value.1, scope.subscriber);
      case "payload" => r := ResolveMapField(cut.value.1, scope.payload);
      case "steps" => r := StepField(cut.value.1, scope.notice);
      case _ => r := Nil;
    }
  }

  lemma DataPath(keys: seq<string>, sub: Subscriber)
    requires keys != [] && AllDotFree(keys)
    ensures SubscriberField("data." + Join(keys), sub) == Lookup(Obj(sub.data, false), keys)
  {
    hide Cut, Lookup;
    SplitJoin(keys);
    assert "data." + Join(keys) == "data" + "." + Join(keys);
    CutAtDot("data", Join(keys));
  }

  lemma SubscriberNames(sub: Subscriber)
    ensures SubscriberField("data", sub) == Obj(sub.data, false)
  {
    CutAtDot("data", "");
  }

  /** For every list of dot-free keys the dotted field is the recursive lookup, in the
      payload and in the subscriber's data. */
  lemma DottedFieldIsLookup(keys: seq<string>, scope: Scope)
    requires keys != [] && AllDotFree(keys)
    ensures FieldValue("payload." + Join(keys), scope) == Lookup(Obj(scope.payload, false), keys)
    ensures FieldValue("subscriber.data." + Join(keys), scope) == Lookup(Obj(scope.subscriber.data, false), keys)
  {
    hide Cut, Lookup;
    SplitJoin(keys);
    assert "payload." + Join(keys) == "payload" + "." + Join(keys);
    CutAtDot("payload", Join(keys));
    assert "subscriber.data." + Join(keys) == "subscriber" + "." + ("data" + "." + Join(keys));
    CutAtDot("subscriber", "data" + "." + Join(keys));
    CutAtDot("data", Join(keys));
  }

  /** In a running handler a dotted payload field is the value the payload has there, at any
      depth; a field of the subscriber's data is, for a single key, and Nil below it: nested
      data comes out of the database as objects the lookup does not enter. */
  lemma FieldsAtRunTime(keys: seq<string>, scope: Scope)
    requires keys != [] && AllDotFree(keys) && AtRunTime(scope)
    ensures FieldValue("payload." + Join(keys), scope) == Find(Obj(scope.payload, false), keys)
    ensures FieldValue("subscriber.data." + Join(keys), scope)
      == if |keys| == 1 then Find(Obj(scope.subscriber.data, false), keys) else Nil
  {
    hide FieldValue;
    DottedFieldIsLookup(keys, scope);
    JsonIsPlain(Obj(scope.payload, false), keys);
    LookupReaches(Obj(scope.payload, false), keys);
    StoredIsShallow(scope.subscriber.data, keys);
  }

  lemma StoredIsShallow(data: map<string, Value>, keys: seq<string>)
    requires keys != [] && forall k :: k in data ==> FromStore(data[k])
    ensures Lookup(Obj(data, false), keys) == if |keys| == 1 then Find(Obj(data, false), keys) else Nil
  {
    if keys[0] in data {
      var v := data[keys[0]];
      assert FromStore(v);
      assert Lookup(v, keys[1..]) == if |keys| == 1 then v else Nil;
    }
  }

  /** The status of any step is the notification's own, and Nil before there is one. */
  lemma StepFieldIsNotice(step: string, other: string, scope: Scope)
    requires DotFree(step)
    ensures other !in {"seen", "read"} ==> FieldValue("steps." + step + "." + other, scope) == Nil
    ensures FieldValue("steps." + step + ".seen", scope) == if scope.notice.Some? then Bool(scope.notice.value.seen)
      else Nil
    ensures FieldValue("steps." + step + ".read", scope) == if scope.notice.Some? then Bool(scope.notice.value.read)
      else Nil
  {
    hide Cut;
    assert "steps." + step + ".seen" == "steps" + "." + (step + "." + "seen");
    assert "steps." + step + ".read" == "steps" + "." + (step + "." + "read");
    assert "steps." + step + "." + other == "steps" + "." + (step + "." + other);
    CutAtDot("steps", step + "." + other);
    CutAtDot(step, other);
    CutAtDot("steps", step + "." + "seen");
    CutAtDot("steps", step + "." + "read");
    CutAtDot(step, "seen");
    CutAtDot(step, "read");
  }

  // ---------------------------------------------------------------------------------
  // Comparison
  // ---------------------------------------------------------------------------------

  /** A number, or text that scans as one. */
  function Numeric(x: Text, v: Value): Option<Number> {
    match v
    case Num(n) => Some(n)
    case Str(s) => x.scan(s)
    case _ => None
  }

  predicate CompareEqual(x: Text, a: Value, e: Value) {
    if a.Nil? && e.Nil? then true
    else if a.Nil? || e.Nil? then false
    else if a.Bool? || e.Bool? then a.Bool? && e.Bool? && a.b == e.b
    else
      match (Numeric(x, a), Numeric(x, e))
      case (Some(n), Some(m)) => n.Same(m)
      case _ => x.show(a) == x.show(e)
  }

  predicate OccursAt(part: string, s: string, k: nat) {
    k + |part| <= |s| && s[k..k + |part|] == part
  }

  ghost predicate IsSubstring(part: string, s: string) {
    exists k :: OccursAt(part, s, k)
  }

  method Contains(s: string, part: string) returns (r: bool)
    ensures r <==> IsSubstring(part, s)
  {
    var i := 0;
    while i + |part| <= |s|
      invariant forall k :: 0 <= k < i ==> !OccursAt(part, s, k)
    {
      if OccursAt(part, s, i) {
        return true;
      }
      i := i + 1;
    }
    return false;
  }

  /** An item of a plain list reads the same as the value. */
  ghost predicate Listed(x: Text, a: Value, e: Value) {
    e.Arr? && !e.stored && exists i :: 0 <= i < |e.items| && x.show(e.items[i]) == x.show(a)
  }

  /** Both sides are numbers, in the given order. */
  predicate Less(x: Text, a: Value, e: Value) {
    Numeric(x, a).Some? && Numeric(x, e).Some? && Numeric(x, a).value.Less(Numeric(x, e).value)
  }

  predicate SameNumber(x: Text, a: Value, e: Value) {
    Numeric(x, a).Some? && Numeric(x, e).Some? && Numeric(x, a).value.Same(Numeric(x, e).value)
  }

  /** Which operators hold between two values; an unknown one never does. */
  ghost predicate Holds(x: Text, a: Value, operator: string, e: Value) {
    match operator
    case "eq" => CompareEqual(x, a, e)
    case "ne" => !CompareEqual(x, a, e)
    case "contains" => IsSubstring(x.show(e), x.show(a))
    case "in" => Listed(x, a, e)
    case "nin" => !Listed(x, a, e)
    case "gt" => Less(x, e, a)
    case "gte" => Less(x, e, a) || SameNumber(x, a, e)
    case "lt" => Less(x, a, e)
    case "lte" => Less(x, a, e) || SameNumber(x, a, e)
    case _ => false
  }

  /** The "in" and "nin" loops: the answer at the first matching item, or at the end. */
  method ScanItems(x: Text, a: Value, e: Value, found: bool) returns (r: bool)
    ensures r <==> if Listed(x, a, e) then found else !found
  {
    if e.Arr? && !e.stored {
      for i := 0 to |e.items|
        invariant forall j :: 0 <= j < i ==> x.show(e.items[j]) != x.show(a)
      {
        if x.show(a) == x.show(e.items[i]) {
          return found;
        }
      }
    }
    return !found;
  }

  method CompareValues(x: Text, a: Value, operator: string, e: Value) returns (r: bool)
    ensures r <==> Holds(x, a, operator, e)
  {
    hide CompareEqual, IsSubstring, Listed;
    var n, m := Numeric(x, a), Numeric(x, e);
    match operator {
      case "eq" => r := CompareEqual(x, a, e);
      case "ne" => r := !CompareEqual(x, a, e);
      case "contains" => r := Contains(x.show(a), x.show(e));
      case "in" => r := ScanItems(x, a, e, true);
      case "nin" => r := ScanItems(x, a, e, false);
      case "gt" => r := n.Some? && m.Some? && m.value.Less(n.value);
      case "gte" => r := n.Some? && m.Some? && (m.value.Less(n.value) || n.value.Same(m.value));
      case "lt" => r := n.Some? && m.Some? && n.value.Less(m.value);
      case "lte" => r := n.Some? && m.Some? && (n.value.Less(m.value) || n.value.Same(m.value));
      case _ => r := false;
    }
  }

  /** A number that is not NaN. */
  predicate Ordinary(x: Text, v: Value) { Numeric(x, v).Some? && !Numeric(x, v).value.NaN? }

  /** The operators fit together: equality is symmetric, and reflexive exactly for what does
      not scan as NaN; ne and nin negate eq and in; swapping the sides swaps the orders;
      exactly one of lt, eq and gt holds between two ordinary numbers, and an order holds of
      ordinary numbers only. */
  lemma OperatorsFit(x: Text, a: Value, e: Value)
    ensures Holds(x, a, "eq", a) <==> Numeric(x, a) != Some(NaN)
    ensures Holds(x, a, "eq", e) <==> Holds(x, e, "eq", a)
    ensures Holds(x, a, "ne", e) <==> !Holds(x, a, "eq", e)
    ensures Holds(x, a, "nin", e) <==> !Holds(x, a, "in", e)
    ensures (Holds(x, a, "gt", e) <==> Holds(x, e, "lt", a)) && (Holds(x, a, "gte", e) <==> Holds(x, e, "lte", a))
    ensures Ordinary(x, a) && Ordinary(x, e) ==>
      && (Holds(x, a, "lt", e) || Holds(x, a, "eq", e) || Holds(x, a, "gt", e))
      && !(Holds(x, a, "lt", e) && Holds(x, a, "gte", e)) && (Holds(x, a, "lt", e) || Holds(x, a, "gte", e))
      && (Holds(x, a, "eq", e) <==> Holds(x, a, "gte", e) && Holds(x, a, "lte", e))
    ensures Holds(x, a, "gte", e) || Holds(x, a, "lte", e) ==> Ordinary(x, a) && Ordinary(x, e)
  {
  }

  /** Between finite numbers, given as such or as text, every operator is the one on reals. */
  lemma NumbersCompare(x: Text, a: Value, e: Value, r: real, s: real)
    requires a == Num(Finite(r)) || (a.Str? && x.scan(a.s) == Some(Finite(r)))
    requires e == Num(Finite(s)) || (e.Str? && x.scan(e.s) == Some(Finite(s)))
    ensures Holds(x, a, "gt", e) <==> r > s
    ensures Holds(x, a, "gte", e) <==> r >= s
    ensures Holds(x, a, "lt", e) <==> r < s
    ensures Holds(x, a, "lte", e) <==> r <= s
    ensures Holds(x, a, "eq", e) <==> r == s
    ensures Holds(x, a, "ne", e) <==> r != s
  {
  }

  /** The infinities lie beyond every finite number and equal themselves; nothing holds of NaN
      but "ne", and no order of anything that is not a number. */
  lemma InfinitiesCompare(x: Text, a: Value, e: Value, n: Number, m: Number)
    requires a == Num(n) || (a.Str? && x.scan(a.s) == Some(n))
    requires e == Num(m) || (e.Str? && x.scan(e.s) == Some(m))
    ensures n.PosInf? || m.NegInf? ==> (Holds(x, a, "gt", e) <==> !m.NaN? && !n.NaN? && n != m) && !Holds(x, a, "lt", e)
    ensures n.NegInf? || m.PosInf? ==> (Holds(x, a, "lt", e) <==> !m.NaN? && !n.NaN? && n != m) && !Holds(x, a, "gt", e)
    ensures n.NaN? || m.NaN? ==> Holds(x, a, "ne", e)
    ensures n.NaN? || m.NaN? ==> forall o :: o in {"eq", "gt", "gte", "lt", "lte"} ==> !Holds(x, a, o, e)
    ensures !n.NaN? ==> (Holds(x, a, "eq", e) <==> n == m)
    ensures Holds(x, a, "gte", e) <==> Holds(x, a, "gt", e) || Holds(x, a, "eq", e)
    ensures Holds(x, a, "lte", e) <==> Holds(x, a, "lt", e) || Holds(x, a, "eq", e)
  {
  }

  /** What is no number is in no order. Truth values equal the same truth value only, nil
      equals nil only, and any other two values of which one is no number are equal when they
      print the same. */
  lemma OthersCompare(x: Text, a: Value, e: Value)
    requires !(a.Num? || (a.Str? && x.scan(a.s).Some?)) || !(e.Num? || (e.Str? && x.scan(e.s).Some?))
    ensures forall o :: o in {"gt", "gte", "lt", "lte"} ==> !Holds(x, a, o, e)
    ensures Holds(x, a, "eq", e) <==>
      if a.Bool? && e.Bool? then a.b == e.b
      else if a.Nil? && e.Nil? then true
      else !a.Bool? && !e.Bool? && !a.Nil? && !e.Nil? && x.show(a) == x.show(e)
    ensures Holds(x, a, "ne", e) <==> !Holds(x, a, "eq", e)
  {
  }

  /** Text is contained when it is a stretch of the other; a value is in a list when some item
      prints the same, and in nothing that is not a plain list. No other operator holds. */
  lemma SearchesCompare(x: Text, a: Value, e: Value, operator: string)
    ensures Holds(x, a, "contains", e) <==> exists p, q :: x.show(a) == p + x.show(e) + q
    ensures Holds(x, a, "in", e) <==> e.Arr? && !e.stored && exists v :: v in e.items && x.show(v) == x.show(a)
    ensures Holds(x, a, "nin", e) <==> !Holds(x, a, "in", e)
    ensures operator !in {"eq", "ne", "contains", "in", "nin", "gt", "gte", "lt", "lte"} ==> !Holds(x, a, operator, e)
  {
    SubstringExact(x.show(e), x.show(a));
    hide IsSubstring;
    if e.Arr? && !e.stored {
      if v :| v in e.items && x.show(v) == x.show(a) {
        var i :| 0 <= i < |e.items| && e.items[i] == v;
        assert Listed(x, a, e);
      }
    }
  }

  lemma SubstringExact(part: string, s: string)
    ensures IsSubstring(part, s) <==> exists p, q :: s == p + part + q
  {
    if k: nat :| OccursAt(part, s, k) {
      assert s == s[..k] + part + s[k + |part|..];
    }
    if p, q :| s == p + part + q {
      assert s[|p|..|p| + |part|] == part;
      assert OccursAt(part, s, |p|);
    }
  }

  /** A list condition that was read from the database is of a type the loops do not scan:
      "in" then never holds and "nin" always does, whatever the list. */
  lemma StoredListsNeverMatch(x: Text, a: Value, e: Value)
    requires FromStore(e)
    ensures !Holds(x, a, "in", e) && Holds(x, a, "nin", e)
  {
  }

  // ---------------------------------------------------------------------------------
  // Evaluation
  // ---------------------------------------------------------------------------------

  ghost predicate Met(x: Text, c: Condition, scope: Scope) {
    Holds(x, FieldValue(c.field, scope), c.operator, c.value)
  }

  /** A step is skipped exactly when it is off by default or some condition fails. */
  ghost predicate IsSkipped(x: Text, step: Step, scope: Scope) {
    !step.enabled || exists i :: 0 <= i < |step.conditions| && !Met(x, step.conditions[i], scope)
  }

  /** The evaluation of a workflow. */
  ghost function Plan(x: Text, steps: seq<Step>, scope: Scope): (plan: seq<Planned>)
    ensures IsPlan(steps, plan) && forall i :: 0 <= i < |plan| ==> (plan[i].skipped <==> IsSkipped(x, steps[i], scope))
  {
    seq(|steps|, i requires 0 <= i < |steps| => Planned(i, steps[i], IsSkipped(x, steps[i], scope)))
  }

  method EvaluateCondition(x: Text, c: Condition, scope: Scope) returns (r: bool)
    ensures r <==> Met(x, c, scope)
  {
    var v := ResolveField(c.field, scope);
    r := CompareValues(x, v, c.operator, c.value);
  }

  /** An evaluation has one entry per step, in order. */
  method EvaluateWorkflow(x: Text, steps: seq<Step>, scope: Scope) returns (plan: seq<Planned>)
    ensures IsPlan(steps, plan) && plan == Plan(x, steps, scope)
    ensures forall i :: 0 <= i < |plan| ==> (plan[i].skipped <==> IsSkipped(x, steps[i], scope))
  {
    hide Met;
    plan := [];
    for i := 0 to |steps|
      invariant |plan| == i
      invariant forall j :: 0 <= j < i ==> plan[j].index == j && plan[j].step == steps[j]
      invariant forall j :: 0 <= j < i ==> (plan[j].skipped <==> IsSkipped(x, steps[j], scope))
    {
      if !steps[i].enabled {
        plan := plan + [Planned(i, steps[i], true)];
        continue;
      }
      var allMet := true;
      for k := 0 to |steps[i].conditions|
        invariant allMet && forall j :: 0 <= j < k ==> Met(x, steps[i].conditions[j], scope)
      {
        var met := EvaluateCondition(x, steps[i].conditions[k], scope);
        if !met {
          allMet := false;
          break;
        }
      }
      plan := plan + [Planned(i, steps[i], !allMet)];
    }
  }

  /** A step runs exactly when it is on and the value each of its conditions refers to compares
      as the condition asks. */
  lemma RunsIffAllHold(x: Text, steps: seq<Step>, scope: Scope, i: nat)
    requires i < |steps|
    ensures !Plan(x, steps, scope)[i].skipped <==>
      steps[i].enabled && forall c :: c in steps[i].conditions ==>
          Holds(x, FieldValue(c.field, scope), c.operator, c.value)
  {
    hide Holds, FieldValue;
    var all := steps[i].conditions;
    if forall k :: 0 <= k < |all| ==> Met(x, all[k], scope) {
      forall c | c in all ensures Holds(x, FieldValue(c.field, scope), c.operator, c.value) {
        var k :| 0 <= k < |all| && all[k] == c;
        assert Met(x, all[k], scope);
      }
    }
  }

  /** A step that asks for a payload number above a bound runs exactly when it is above. */
  lemma ThresholdStep(x: Text, steps: seq<Step>, scope: Scope, i: nat, keys: seq<string>, r: real, bound: real)
    requires i < |steps| && keys != [] && AllDotFree(keys) && AtRunTime(scope)
    requires Find(Obj(scope.payload, false), keys) == Num(Finite(r))
    requires steps[i].enabled && steps[i].conditions == [Condition("payload." + Join(keys), "gt", Num(Finite(bound)))]
    ensures Plan(x, steps, scope)[i].skipped <==> r <= bound
  {
    hide Holds, FieldValue, Find;
    RunsIffAllHold(x, steps, scope, i);
    FieldsAtRunTime(keys, scope);
    NumbersCompare(x, Num(Finite(r)), Num(Finite(bound)), r, bound);
    assert steps[i].conditions[0] in steps[i].conditions;
  }

  /** A subscriber's own fields; whatever follows their names behind a dot is ignored. Any other
      name is nil, and so is any other kind of field. */
  lemma SubscriberFields(name: string, rest: string, scope: Scope)
    requires DotFree(name)
    ensures var v :=
        if name == "email" then Str(scope.subscriber.email)
        else if name == "phone" then Str(scope.subscriber.phone)
        else if name == "locale" then Str(scope.subscriber.locale)
        else Nil;
      && (name != "data" ==>
          FieldValue("subscriber." + name, scope) == v && FieldValue("subscriber." + name + "." + rest, scope) == v)
      && (name == "data" ==> FieldValue("subscriber." + name, scope) == Obj(scope.subscriber.data, false))
      && (name !in {"subscriber", "payload", "steps"} ==>
          FieldValue(name + "." + rest, scope) == Nil && FieldValue(name, scope) == Nil)
  {
    hide Cut;
    assert "subscriber." + name == "subscriber" + "." + name;
    assert "subscriber." + name + "." + rest == "subscriber" + "." + (name + "." + rest);
    CutAtDot("subscriber", name);
    CutAtDot("subscriber", name + "." + rest);
    CutAtDot(name, rest);
  }

  /** A subscriber whose locale was cleared meets a condition on the empty locale, so an
      evaluation with an empty locale is one a running handler can make. */
  lemma ClearedLocaleIsSeen(x: Text, scope: Scope)
    requires scope.subscriber.locale == "" && x.scan("") == None
    ensures Met(x, Condition("subscriber.locale", "eq", Str("")), scope)
    ensures AtRunTime(scope) <==> AtRunTime(scope.(subscriber := scope.subscriber.(locale := "en")))
  {
    hide FieldValue;
    LocaleField(scope);
  }

  lemma LocaleField(scope: Scope)
    ensures FieldValue("subscriber.locale", scope) == Str(scope.subscriber.locale)
  {
    hide Cut;
    assert "subscriber.locale" == "subscriber" + "." + "locale";
    CutAtDot("subscriber", "locale");
    CutAtDot("locale", "");
  }

  /** A condition on a payload field, spelled as a dotted path of keys, is met exactly when
      the value under those keys compares; a missing key compares as Nil. */
  lemma ConditionOnPayload(x: Text, keys: seq<string>, operator: string, value: Value, scope: Scope)
    requires keys != [] && AllDotFree(keys)
    ensures Met(x, Condition("payload." + Join(keys), operator, value), scope)
      <==> Holds(x, Lookup(Obj(scope.payload, false), keys), operator, value)
  {
    hide Holds;
    DottedFieldIsLookup(keys, scope);
  }
}
