/** Restricted expressions: references are bound to fresh names before evaluation, or looked up directly. */
module Expressions {
  import opened Ids

  datatype Value = Nothing | Truth(b: bool) | Number(n: int) | Text(s: string) | Items(items: seq<Value>) | Fields(fields: map<string, Value>)

  type Env = map<string, Value>

  /** What a node does with the values of all its parts. Foreign stands for any syntax outside the supported set. */
  datatype Op =
    | Attribute(name: string) | Subscript | ListOf | TupleOf | DictOf | RegexMatch | Not | Negative | Positive
    | Arithmetic(symbol: string) | Foreign(name: string)

  /** Syntax trees. A reference stands for a dotted path that is looked up in the environment. */
  datatype Expr =
    | Const(value: Value)
    | Name(id: string)
    | Ref(path: seq<string>)
    | Node(op: Op, parts: seq<Expr>)
    | Logic(isAnd: bool, parts: seq<Expr>)
    | Compare(left: Expr, symbols: seq<string>, parts: seq<Expr>)

  /** The operations on values; each may fail. */
  datatype Rules = Rules(
    apply: (Op, seq<Value>) -> Option<Value>, compare: (string, Value, Value) -> Option<Value>, truthy: Value -> bool,
    compiles: string -> bool, digits: string -> Option<nat>)

  datatype Outcome = Got(value: Value) | Fails | NotSupported

  datatype AllOutcome = AllGot(values: seq<Value>) | Not(outcome: Outcome)

  // ----- Evaluation -----

  function EvaluateAll(rules: Rules, parts: seq<Expr>, env: Env): AllOutcome
    decreases parts, 0
  {
    if parts == [] then AllGot([])
    else
      match Evaluate(rules, parts[0], env)
      case Got(v) =>
        (match EvaluateAll(rules, parts[1..], env)
         case AllGot(vs) => AllGot([v] + vs)
         case other => other)
      case other => AllOutcome.Not(other)
  }

  /** A chain of one connective stops at the first part that settles it. */
  function EvaluateLogic(rules: Rules, isAnd: bool, parts: seq<Expr>, env: Env, last: Value): Outcome
    decreases parts, 0
  {
    if parts == [] then Got(last)
    else
      match Evaluate(rules, parts[0], env)
      case Got(v) => if rules.truthy(v) == isAnd then EvaluateLogic(rules, isAnd, parts[1..], env, v) else Got(v)
      case other => other
  }

  /** A chain of comparisons stops at the first one that does not hold. */
  function EvaluateCompare(rules: Rules, left: Value, symbols: seq<string>, parts: seq<Expr>, env: Env): Outcome
    decreases parts, 0
  {
    if parts == [] || symbols == [] then Got(Truth(true))
    else
      match Evaluate(rules, parts[0], env)
      case Got(right) =>
        (match rules.compare(symbols[0], left, right)
         case None => Fails
         case Some(v) => if rules.truthy(v) then EvaluateCompare(rules, right, symbols[1..], parts[1..], env) else Got(Truth(false)))
      case other => other
  }

  /** Evaluation with references looked up when they are reached. Trees whose references have been bound hold none. */
  function Evaluate(rules: Rules, e: Expr, env: Env): Outcome
    decreases e, 1
  {
    match e
    case Const(v) => Got(v)
    case Name(id) => if id in env then Got(env[id]) else Fails
    case Ref(path) => (match Lookup(rules, path, Fields(env)) case None => Fails case Some(v) => Got(v))
    case Node(op, parts) =>
      if op.Foreign? then NotSupported
      else
        (match EvaluateAll(rules, parts, env)
         case AllGot(vs) => (match rules.apply(op, vs) case None => Fails case Some(v) => Got(v))
         case Not(outcome) => outcome)
    case Logic(isAnd, parts) => EvaluateLogic(rules, isAnd, parts, env, Truth(isAnd))
    case Compare(left, symbols, parts) =>
      (match Evaluate(rules, left, env)
       case Got(v) => EvaluateCompare(rules, v, symbols, parts, env)
       case other => other)
  }

  /** Follows a path through fields and list positions. */
  function Lookup(rules: Rules, path: seq<string>, current: Value): Option<Value>
  {
    if path == [] then Some(current)
    else
      match current
      case Fields(fields) => if path[0] in fields then Lookup(rules, path[1..], fields[path[0]]) else None
      case Items(items) =>
        (match rules.digits(path[0])
         case Some(i) => if i < |items| then Lookup(rules, path[1..], items[i]) else None
         case None => None)
      case _ => None
  }

  // ----- Validation -----

  predicate Hidden(id: string)
  {
    id != "" && id[0] == '_'
  }

  /** The syntax the evaluator supports. */
  predicate Validated(rules: Rules, e: Expr)
    decreases e, 1
  {
    match e
    case Const(v) => !v.Items? && !v.Fields?
    case Name(id) => !Hidden(id)
    case Ref(_) => true
    case Node(op, parts) =>
      && !op.Foreign? && (op.Attribute? ==> !Hidden(op.name))
      && (op.RegexMatch? ==> |parts| == 2 && (parts[0].Const? && parts[0].value.Text? ==> rules.compiles(parts[0].value.s)))
      && AllValidated(rules, parts)
    case Logic(_, parts) => AllValidated(rules, parts)
    case Compare(left, _, parts) => Validated(rules, left) && AllValidated(rules, parts)
  }

  predicate AllValidated(rules: Rules, parts: seq<Expr>)
    decreases parts, 0
  {
    parts == [] || (Validated(rules, parts[0]) && AllValidated(rules, parts[1..]))
  }

  lemma {:induction false} AllSupported(rules: Rules, parts: seq<Expr>, env: Env)
    requires AllValidated(rules, parts)
    ensures EvaluateAll(rules, parts, env) != AllOutcome.Not(NotSupported)
    decreases parts, 0
  {
    if parts != [] {
      ValidatedIsSupported(rules, parts[0], env);
      AllSupported(rules, parts[1..], env);
    }
  }

  lemma {:induction false} LogicSupported(rules: Rules, isAnd: bool, parts: seq<Expr>, env: Env, last: Value)
    requires AllValidated(rules, parts)
    ensures EvaluateLogic(rules, isAnd, parts, env, last) != NotSupported
    decreases parts, 0
  {
    if parts != [] {
      ValidatedIsSupported(rules, parts[0], env);
      match Evaluate(rules, parts[0], env)
      case Got(v) => LogicSupported(rules, isAnd, parts[1..], env, v);
      case _ =>
    }
  }

  lemma {:induction false} CompareSupported(rules: Rules, left: Value, symbols: seq<string>, parts: seq<Expr>, env: Env)
    requires AllValidated(rules, parts)
    ensures EvaluateCompare(rules, left, symbols, parts, env) != NotSupported
    decreases parts, 0
  {
    if parts != [] && symbols != [] {
      ValidatedIsSupported(rules, parts[0], env);
      match Evaluate(rules, parts[0], env)
      case Got(right) => CompareSupported(rules, right, symbols[1..], parts[1..], env);
      case _ =>
    }
  }

  /** Evaluating a validated tree never comes upon syntax that is not supported. */
  lemma {:induction false} ValidatedIsSupported(rules: Rules, e: Expr, env: Env)
    requires Validated(rules, e)
    ensures Evaluate(rules, e, env) != NotSupported
    decreases e, 1
  {
    match e
    case Node(op, parts) => AllSupported(rules, parts, env);
    case Logic(isAnd, parts) => LogicSupported(rules, isAnd, parts, env, Truth(isAnd));
    case Compare(left, symbols, parts) =>
      ValidatedIsSupported(rules, left, env);
      match Evaluate(rules, left, env) {
        case Got(v) => CompareSupported(rules, v, symbols, parts, env);
        case _ =>
      }
    case _ =>
  }

  // ----- Names for references -----

  function Digit(d: nat): char
    requires d < 10
  {
    '0' + d as char
  }

  function Decimal(n: nat): string
  {
    if n < 10 then [Digit(n)] else Decimal(n / 10) + [Digit(n % 10)]
  }

  lemma {:induction false} DecimalIsInjective(m: nat, n: nat)
    requires Decimal(m) == Decimal(n)
    ensures m == n
  {
    var a, b := Decimal(m), Decimal(n);
    assert a[|a| - 1] == Digit(m % 10) && b[|b| - 1] == Digit(n % 10);
    assert m % 10 == n % 10;
    DecimalLength(m);
    DecimalLength(n);
    if m >= 10 && n >= 10 {
      assert Decimal(m / 10) == a[..|a| - 1] == Decimal(n / 10);
      DecimalIsInjective(m / 10, n / 10);
    }
  }

  lemma {:induction false} DecimalLength(n: nat)
    ensures |Decimal(n)| >= 1 && (n >= 10 ==> |Decimal(n)| >= 2)
  {
    if n >= 10 {
      DecimalLength(n / 10);
    }
  }

  const PREFIX := "bindingref"

  function BindingName(n: nat): string
  {
    PREFIX + Decimal(n)
  }

  lemma BindingNamesDiffer(m: nat, n: nat)
    requires BindingName(m) == BindingName(n)
    ensures m == n
  {
    assert Decimal(m) == BindingName(m)[|PREFIX|..] && Decimal(n) == BindingName(n)[|PREFIX|..];
    DecimalIsInjective(m, n);
  }

  // ----- Binding -----

  datatype Binding = Bound(expr: Expr, env: Env) | Unresolved

  datatype AllBinding = AllBound(parts: seq<Expr>, env: Env) | SomeUnresolved

  /** Replaces each reference, from left to right, by a name for the value it stands for; the number in the name is the
      size of the environment so far. */
  function Bind(rules: Rules, e: Expr, values: Env, bound: Env): Binding
    decreases e, 1
  {
    match e
    case Const(_) => Bound(e, bound)
    case Name(_) => Bound(e, bound)
    case Ref(path) =>
      (match Lookup(rules, path, Fields(values))
       case None => Unresolved
       case Some(v) => Bound(Name(BindingName(|bound|)), bound[BindingName(|bound|) := v]))
    case Node(op, parts) =>
      (match BindAll(rules, parts, values, bound)
       case SomeUnresolved => Unresolved
       case AllBound(ps, b) => Bound(Node(op, ps), b))
    case Logic(isAnd, parts) =>
      (match BindAll(rules, parts, values, bound)
       case SomeUnresolved => Unresolved
       case AllBound(ps, b) => Bound(Logic(isAnd, ps), b))
    case Compare(left, symbols, parts) =>
      (match Bind(rules, left, values, bound)
       case Unresolved => Unresolved
       case Bound(l, b) =>
         match BindAll(rules, parts, values, b)
         case SomeUnresolved => Unresolved
         case AllBound(ps, c) => Bound(Compare(l, symbols, ps), c))
  }

  function BindAll(rules: Rules, parts: seq<Expr>, values: Env, bound: Env): AllBinding
    decreases parts, 0
  {
    if parts == [] then AllBound([], bound)
    else
      match Bind(rules, parts[0], values, bound)
      case Unresolved => SomeUnresolved
      case Bound(p, b) =>
        match BindAll(rules, parts[1..], values, b)
        case SomeUnresolved => SomeUnresolved
        case AllBound(ps, c) => AllBound([p] + ps, c)
  }

  /** What evaluating an expression comes to: bind all references, check the tree without references, evaluate it. */
  function EvaluateBound(rules: Rules, e: Expr, values: Env): Outcome
  {
    match Bind(rules, e, values, values)
    case Unresolved => Fails
    case Bound(tree, env) => if Validated(rules, tree) then Evaluate(rules, tree, env) else NotSupported
  }

  // ----- How many names binding makes -----

  function RefCount(e: Expr): nat
    decreases e, 1
  {
    match e
    case Ref(_) => 1
    case Node(_, parts) => RefCounts(parts)
    case Logic(_, parts) => RefCounts(parts)
    case Compare(left, _, parts) => RefCount(left) + RefCounts(parts)
    case _ => 0
  }

  function RefCounts(parts: seq<Expr>): nat
    decreases parts, 0
  {
    if parts == [] then 0 else RefCount(parts[0]) + RefCounts(parts[1..])
  }

  /** Every reference of the tree resolves. */
  predicate Resolved(rules: Rules, e: Expr, values: Env)
    decreases e, 1
  {
    match e
    case Ref(path) => Lookup(rules, path, Fields(values)).Some?
    case Node(_, parts) => AllResolved(rules, parts, values)
    case Logic(_, parts) => AllResolved(rules, parts, values)
    case Compare(left, _, parts) => Resolved(rules, left, values) && AllResolved(rules, parts, values)
    case _ => true
  }

  predicate AllResolved(rules: Rules, parts: seq<Expr>, values: Env)
    decreases parts, 0
  {
    parts == [] || (Resolved(rules, parts[0], values) && AllResolved(rules, parts[1..], values))
  }

  /** The names with numbers from one up to another. */
  function Made(from: nat, to: nat): set<string>
  {
    set i | from <= i < to :: BindingName(i)
  }

  /** The next n names are not taken. */
  predicate Clear(env: Env, n: nat)
  {
    forall k :: k in Made(|env|, |env| + n) ==> k !in env
  }

  /** The larger environment has the smaller one's entries, and under the next names one entry each. */
  ghost predicate Grown(small: Env, large: Env)
  {
    && |small| <= |large|
    && (forall k :: k in large <==> k in small || k in Made(|small|, |large|))
    && forall k :: k in small ==> large[k] == small[k]
  }

  lemma GrownItself(a: Env)
    ensures Clear(a, 0) && Grown(a, a)
  {
    hide Made;
    MadeOne(|a|);
  }

  lemma MadeSplits(from: nat, mid: nat, to: nat)
    requires from <= mid <= to
    ensures forall k :: k in Made(from, to) <==> k in Made(from, mid) || k in Made(mid, to)
    ensures forall k :: k in Made(from, mid) ==> k !in Made(mid, to)
  {
    hide BindingName;
    forall i: nat, j: nat | from <= i < mid <= j < to ensures BindingName(i) != BindingName(j) {
      if BindingName(i) == BindingName(j) {
        BindingNamesDiffer(i, j);
      }
    }
  }

  lemma MadeOne(n: nat)
    ensures Made(n, n) == {} && Made(n, n + 1) == {BindingName(n)}
  {
    hide BindingName;
    assert BindingName(n) in Made(n, n + 1);
  }

  lemma GrownTwice(a: Env, b: Env, c: Env)
    requires Grown(a, b) && Grown(b, c)
    ensures Grown(a, c)
  {
    hide Made;
    MadeSplits(|a|, |b|, |c|);
  }

  /** One more name: a new entry if it is not taken, and otherwise an entry replaced. */
  lemma FreshName(env: Env, v: Value)
    ensures Clear(env, 1) <==> BindingName(|env|) !in env
    ensures var larger := env[BindingName(|env|) := v];
      if Clear(env, 1) then Grown(env, larger) && |larger| == |env| + 1 else larger.Keys == env.Keys && |larger| == |env|
  {
    hide BindingName, Made;
    var name := BindingName(|env|);
    var larger := env[name := v];
    MadeOne(|env|);
    assert name in Made(|env|, |env| + 1);
    if name in env {
      assert larger.Keys == env.Keys;
      SameSize(larger, env);
    } else {
      assert |larger| == |env| + 1;
    }
  }

  lemma SameSize(a: Env, b: Env)
    requires a.Keys == b.Keys
    ensures |a| == |b|
  {
    assert |a| == |a.Keys| && |b| == |b.Keys|;
  }

  /** After m names have been made, the next n are free exactly if the m + n names were free before. */
  lemma ClearSplits(a: Env, b: Env, m: nat, n: nat)
    requires Grown(a, b) && |b| == |a| + m && Clear(a, m)
    ensures Clear(a, m + n) <==> Clear(b, n)
  {
    hide Made;
    MadeSplits(|a|, |b|, |b| + n);
  }

  lemma ClearBefore(a: Env, m: nat, n: nat)
    requires Clear(a, m + n)
    ensures Clear(a, m)
  {
    hide Made;
    MadeSplits(|a|, |a| + m, |a| + m + n);
  }

  /** How binding two things in a row adds up. */
  lemma CountsAdd(a: Env, b: Env, c: Env, m: nat, n: nat)
    requires |b| <= |a| + m && (|b| == |a| + m <==> Clear(a, m)) && (Clear(a, m) ==> Grown(a, b))
    requires |c| <= |b| + n && (|c| == |b| + n <==> Clear(b, n)) && (Clear(b, n) ==> Grown(b, c))
    ensures |c| <= |a| + (m + n) && (|c| == |a| + (m + n) <==> Clear(a, m + n)) && (Clear(a, m + n) ==> Grown(a, c))
  {
    hide Clear, Grown;
    if Clear(a, m + n) {
      ClearBefore(a, m, n);
    }
    if Clear(a, m) {
      ClearSplits(a, b, m, n);
      if Clear(b, n) {
        GrownTwice(a, b, c);
      }
    }
  }

  /** Binding succeeds exactly when every reference resolves. It then makes a new entry for each reference, and keeps all
      others, if and only if none of the names to come is taken. */
  lemma {:induction false} BindFits(rules: Rules, e: Expr, values: Env, bound: Env)
    ensures Bind(rules, e, values, bound).Bound? <==> Resolved(rules, e, values)
    ensures Bind(rules, e, values, bound).Bound? ==>
      var env := Bind(rules, e, values, bound).env;
      && |env| <= |bound| + RefCount(e) && (|env| == |bound| + RefCount(e) <==> Clear(bound, RefCount(e)))
      && (Clear(bound, RefCount(e)) ==> Grown(bound, env))
    decreases e, 1
  {
    hide BindingName, Lookup, Clear, Grown;
    GrownItself(bound);
    match e
    case Ref(path) =>
      var found := Lookup(rules, path, Fields(values));
      if found.Some? {
        FreshName(bound, found.value);
      }
    case Node(_, parts) => BindAllFits(rules, parts, values, bound);
    case Logic(_, parts) => BindAllFits(rules, parts, values, bound);
    case Compare(left, _, parts) =>
      BindFits(rules, left, values, bound);
      var b := Bind(rules, left, values, bound);
      if b.Bound? {
        BindAllFits(rules, parts, values, b.env);
        var c := BindAll(rules, parts, values, b.env);
        if c.AllBound? {
          CountsAdd(bound, b.env, c.env, RefCount(left), RefCounts(parts));
        }
      }
    case _ =>
  }

  lemma {:induction false} BindAllFits(rules: Rules, parts: seq<Expr>, values: Env, bound: Env)
    ensures BindAll(rules, parts, values, bound).AllBound? <==> AllResolved(rules, parts, values)
    ensures BindAll(rules, parts, values, bound).AllBound? ==>
      var env := BindAll(rules, parts, values, bound).env;
      && |env| <= |bound| + RefCounts(parts) && (|env| == |bound| + RefCounts(parts) <==> Clear(bound, RefCounts(parts)))
      && (Clear(bound, RefCounts(parts)) ==> Grown(bound, env))
    decreases parts, 0
  {
    hide Clear, Grown;
    GrownItself(bound);
    if parts != [] {
      BindFits(rules, parts[0], values, bound);
      var b := Bind(rules, parts[0], values, bound);
      if b.Bound? {
        BindAllFits(rules, parts[1..], values, b.env);
        var c := BindAll(rules, parts[1..], values, b.env);
        if c.AllBound? {
          CountsAdd(bound, b.env, c.env, RefCount(parts[0]), RefCounts(parts[1..]));
        }
      }
    }
  }

  // ----- A name that is taken -----

  /** The tree with one name for all references. */
  function Shared(e: Expr, name: string): Expr
    decreases e, 1
  {
    match e
    case Ref(_) => Name(name)
    case Node(op, parts) => Node(op, AllShared(parts, name))
    case Logic(isAnd, parts) => Logic(isAnd, AllShared(parts, name))
    case Compare(left, symbols, parts) => Compare(Shared(left, name), symbols, AllShared(parts, name))
    case _ => e
  }

  function AllShared(parts: seq<Expr>, name: string): seq<Expr>
    decreases parts, 0
  {
    if parts == [] then [] else [Shared(parts[0], name)] + AllShared(parts[1..], name)
  }

  /** The value of the last reference, or what was there before. */
  function LastValue(rules: Rules, e: Expr, values: Env, before: Value): Value
    requires Resolved(rules, e, values)
    decreases e, 1
  {
    match e
    case Ref(path) => Lookup(rules, path, Fields(values)).value
    case Node(_, parts) => LastOfAll(rules, parts, values, before)
    case Logic(_, parts) => LastOfAll(rules, parts, values, before)
    case Compare(left, _, parts) => LastOfAll(rules, parts, values, LastValue(rules, left, values, before))
    case _ => before
  }

  function LastOfAll(rules: Rules, parts: seq<Expr>, values: Env, before: Value): Value
    requires AllResolved(rules, parts, values)
    decreases parts, 0
  {
    if parts == [] then before else LastOfAll(rules, parts[1..], values, LastValue(rules, parts[0], values, before))
  }

  /** Once the next name is taken, the size no longer changes: all further references get that name, which ends up with
      the value of the last of them. */
  lemma {:induction false} TakenNameIsShared(rules: Rules, e: Expr, values: Env, bound: Env)
    requires BindingName(|bound|) in bound && Resolved(rules, e, values)
    ensures var name := BindingName(|bound|);
      Bind(rules, e, values, bound) == Bound(Shared(e, name), bound[name := LastValue(rules, e, values, bound[name])])
    decreases e, 1
  {
    hide BindingName, Lookup;
    var name := BindingName(|bound|);
    assert bound[name := bound[name]] == bound;
    match e
    case Node(_, parts) => TakenNamesAreShared(rules, parts, values, bound);
    case Logic(_, parts) => TakenNamesAreShared(rules, parts, values, bound);
    case Compare(left, _, parts) =>
      TakenNameIsShared(rules, left, values, bound);
      var b := Bind(rules, left, values, bound).env;
      Replaced(bound, name, LastValue(rules, left, values, bound[name]), LastOfAll(rules, parts, values, b[name]));
      TakenNamesAreShared(rules, parts, values, b);
    case _ =>
  }

  lemma Replaced(bound: Env, name: string, v: Value, w: Value)
    requires name in bound
    ensures |bound[name := v]| == |bound| && bound[name := v][name := w] == bound[name := w]
  {
    assert bound[name := v].Keys == bound.Keys;
    SameSize(bound[name := v], bound);
  }

  lemma {:induction false} TakenNamesAreShared(rules: Rules, parts: seq<Expr>, values: Env, bound: Env)
    requires BindingName(|bound|) in bound && AllResolved(rules, parts, values)
    ensures var name := BindingName(|bound|);
      BindAll(rules, parts, values, bound) == AllBound(AllShared(parts, name), bound[name := LastOfAll(rules, parts, values, bound[name])])
    decreases parts, 0
  {
    hide BindingName;
    var name := BindingName(|bound|);
    assert bound[name := bound[name]] == bound;
    if parts != [] {
      TakenNameIsShared(rules, parts[0], values, bound);
      var b := Bind(rules, parts[0], values, bound).env;
      Replaced(bound, name, LastValue(rules, parts[0], values, bound[name]), LastOfAll(rules, parts[1..], values, b[name]));
      TakenNamesAreShared(rules, parts[1..], values, b);
    }
  }

  // ----- What binding makes of any tree -----

  /** The values of the references, from left to right. */
  function RefValues(rules: Rules, e: Expr, values: Env): (r: seq<Value>)
    requires Resolved(rules, e, values)
    ensures |r| == RefCount(e)
    decreases e, 1
  {
    match e
    case Ref(path) => [Lookup(rules, path, Fields(values)).value]
    case Node(_, parts) => AllRefValues(rules, parts, values)
    case Logic(_, parts) => AllRefValues(rules, parts, values)
    case Compare(left, _, parts) => RefValues(rules, left, values) + AllRefValues(rules, parts, values)
    case _ => []
  }

  function AllRefValues(rules: Rules, parts: seq<Expr>, values: Env): (r: seq<Value>)
    requires AllResolved(rules, parts, values)
    ensures |r| == RefCounts(parts)
    decreases parts, 0
  {
    if parts == [] then [] else RefValues(rules, parts[0], values) + AllRefValues(rules, parts[1..], values)
  }

  /** How many of the next n names, starting with number i, come before the first that is taken. */
  function FreeNames(env: Env, i: nat, n: nat): (f: nat)
    ensures f <= n && (f < n ==> BindingName(i + f) in env)
    ensures forall k :: k in Made(i, i + f) ==> k !in env
    decreases n
  {
    if n == 0 || BindingName(i) in env then 0 else 1 + FreeNames(env, i + 1, n - 1)
  }

  /** The name of the k-th reference, if numbering starts at first and stands still after so many steps. */
  function NameOf(first: nat, free: nat, k: nat): string
  {
    BindingName(first + if k < free then k else free)
  }

  /** The tree with these names for its references, the first of which is the k-th. */
  function Named(e: Expr, first: nat, free: nat, k: nat): Expr
    decreases e, 1
  {
    match e
    case Ref(_) => Name(NameOf(first, free, k))
    case Node(op, parts) => Node(op, AllNamed(parts, first, free, k))
    case Logic(isAnd, parts) => Logic(isAnd, AllNamed(parts, first, free, k))
    case Compare(left, symbols, parts) =>
      Compare(Named(left, first, free, k), symbols, AllNamed(parts, first, free, k + RefCount(left)))
    case _ => e
  }

  function AllNamed(parts: seq<Expr>, first: nat, free: nat, k: nat): seq<Expr>
    decreases parts, 0
  {
    if parts == [] then [] else [Named(parts[0], first, free, k)] + AllNamed(parts[1..], first, free, k + RefCount(parts[0]))
  }

  /** The environment with these values entered under these names, one after the other. */
  function Entered(values: Env, free: nat, vs: seq<Value>): Env
  {
    if vs == [] then values
    else Entered(values, free, vs[..|vs| - 1])[NameOf(|values|, free, |vs| - 1) := vs[|vs| - 1]]
  }

  /** So many names are free, and the next is taken if there are more references. */
  predicate FreeUpTo(values: Env, free: nat, n: nat)
  {
    Clear(values, free) && (free < n ==> BindingName(|values| + free) in values)
  }

  /** The entries of the environment, and the names up to a number. */
  ghost predicate HasMade(values: Env, env: Env, to: nat)
  {
    |env| == to && forall x :: x in env <==> x in values || x in Made(|values|, to)
  }

  lemma NothingEntered(values: Env)
    ensures HasMade(values, values, |values|)
  {
    hide Made;
    MadeOne(|values|);
  }

  lemma NewName(values: Env, env: Env, to: nat, v: Value)
    requires HasMade(values, env, to) && |values| <= to && BindingName(to) !in values
    ensures HasMade(values, env[BindingName(to) := v], to + 1)
  {
    hide Made, BindingName;
    MadeSplits(|values|, to, to + 1);
    MadeOne(to);
    assert BindingName(to) in Made(to, to + 1);
  }

  lemma TakenName(values: Env, env: Env, to: nat, name: string, v: Value)
    requires HasMade(values, env, to) && name in values
    ensures HasMade(values, env[name := v], to)
  {
    hide Made;
    assert env[name := v].Keys == env.Keys;
    SameSize(env[name := v], env);
  }

  lemma ClearAt(env: Env, n: nat, k: nat)
    requires Clear(env, n) && k < n
    ensures BindingName(|env| + k) !in env
  {
    hide BindingName;
    assert BindingName(|env| + k) in Made(|env|, |env| + n);
  }

  lemma {:induction false} EnteredKeys(values: Env, free: nat, vs: seq<Value>)
    requires FreeUpTo(values, free, |vs|)
    ensures HasMade(values, Entered(values, free, vs), |values| + if |vs| < free then |vs| else free)
  {
    hide BindingName, HasMade, Clear, Made;
    if vs == [] {
      NothingEntered(values);
    } else {
      var k := |vs| - 1;
      var before := Entered(values, free, vs[..k]);
      EnteredKeys(values, free, vs[..k]);
      if k < free {
        ClearAt(values, free, k);
        NewName(values, before, |values| + k, vs[k]);
      } else {
        TakenName(values, before, |values| + free, NameOf(|values|, free, k), vs[k]);
      }
    }
  }

  lemma MadeSize(values: Env, env: Env, to: nat)
    requires HasMade(values, env, to)
    ensures |env| == to
  {
  }

  lemma EnteredStep(values: Env, free: nat, vs: seq<Value>, v: Value)
    ensures Entered(values, free, []) == values
    ensures Entered(values, free, vs + [v]) == Entered(values, free, vs)[NameOf(|values|, free, |vs|) := v]
  {
    hide NameOf;
    assert (vs + [v])[..|vs|] == vs;
  }

  lemma NameIs(first: nat, free: nat, k: nat, n: nat)
    requires n == first + if k < free then k else free
    ensures NameOf(first, free, k) == BindingName(n)
  {
    hide BindingName;
  }

  lemma NextEntered(values: Env, free: nat, vs: seq<Value>, v: Value)
    requires FreeUpTo(values, free, |vs| + 1)
    ensures var env := Entered(values, free, vs);
      && BindingName(|env|) == NameOf(|values|, free, |vs|)
      && env[BindingName(|env|) := v] == Entered(values, free, vs + [v])
  {
    hide *;
    FewerFree(values, free, |vs|, |vs| + 1);
    EnteredKeys(values, free, vs);
    MadeSize(values, Entered(values, free, vs), |values| + if |vs| < free then |vs| else free);
    EnteredStep(values, free, vs, v);
    NameIs(|values|, free, |vs|, |Entered(values, free, vs)|);
  }

  lemma {:induction false} BindIsNamed(rules: Rules, e: Expr, values: Env, free: nat, vs: seq<Value>)
    requires Resolved(rules, e, values) && FreeUpTo(values, free, |vs| + RefCount(e))
    ensures Bind(rules, e, values, Entered(values, free, vs))
      == Bound(Named(e, |values|, free, |vs|), Entered(values, free, vs + RefValues(rules, e, values)))
    decreases e, 1
  {
    hide FreeUpTo, Entered, BindingName, NameOf, Lookup;
    match e
    case Ref(path) => NextEntered(values, free, vs, Lookup(rules, path, Fields(values)).value);
    case Node(_, parts) => BindAllNamed(rules, parts, values, free, vs);
    case Logic(_, parts) => BindAllNamed(rules, parts, values, free, vs);
    case Compare(left, symbols, parts) =>
      var found := RefValues(rules, left, values);
      FewerFree(values, free, |vs| + RefCount(left), |vs| + RefCount(e));
      BindIsNamed(rules, left, values, free, vs);
      BindAllNamed(rules, parts, values, free, vs + found);
      var rest := AllRefValues(rules, parts, values);
      hide *;
      Regrouped(vs, found, rest);
      CompareNamed(rules, left, symbols, parts, values, Entered(values, free, vs), |values|, free, |vs|);
    case _ => assert vs + [] == vs;
  }

  lemma Regrouped(a: seq<Value>, b: seq<Value>, c: seq<Value>)
    ensures (a + b) + c == a + (b + c) && |a + b| == |a| + |b|
  {
  }

  lemma CompareNamed(rules: Rules, left: Expr, symbols: seq<string>, parts: seq<Expr>, values: Env, bound: Env, first: nat, free: nat, k: nat)
    requires Resolved(rules, left, values) && AllResolved(rules, parts, values)
    requires var b := Bind(rules, left, values, bound); b.Bound? && b.expr == Named(left, first, free, k)
    requires var c := BindAll(rules, parts, values, Bind(rules, left, values, bound).env);
      c.AllBound? && c.parts == AllNamed(parts, first, free, k + RefCount(left))
    ensures var e := Compare(left, symbols, parts);
      && Bind(rules, e, values, bound)
           == Bound(Named(e, first, free, k), BindAll(rules, parts, values, Bind(rules, left, values, bound).env).env)
      && RefValues(rules, e, values) == RefValues(rules, left, values) + AllRefValues(rules, parts, values)
  {
    hide AllNamed, AllRefValues, AllResolved, BindAll, RefCount, RefCounts;
  }

  lemma FirstNamed(rules: Rules, parts: seq<Expr>, values: Env, bound: Env, first: nat, free: nat, k: nat)
    requires parts != [] && AllResolved(rules, parts, values)
    requires var b := Bind(rules, parts[0], values, bound); b.Bound? && b.expr == Named(parts[0], first, free, k)
    requires var c := BindAll(rules, parts[1..], values, Bind(rules, parts[0], values, bound).env);
      c.AllBound? && c.parts == AllNamed(parts[1..], first, free, k + RefCount(parts[0]))
    ensures BindAll(rules, parts, values, bound) == AllBound(AllNamed(parts, first, free, k),
      BindAll(rules, parts[1..], values, Bind(rules, parts[0], values, bound).env).env)
    ensures AllRefValues(rules, parts, values) == RefValues(rules, parts[0], values) + AllRefValues(rules, parts[1..], values)
  {
    hide Named, RefValues, Bind, RefCount, RefCounts, Resolved;
  }

  lemma FewerFree(values: Env, free: nat, n: nat, m: nat)
    requires FreeUpTo(values, free, m) && n <= m
    ensures FreeUpTo(values, free, n)
  {
  }

  lemma {:induction false} BindAllNamed(rules: Rules, parts: seq<Expr>, values: Env, free: nat, vs: seq<Value>)
    requires AllResolved(rules, parts, values) && FreeUpTo(values, free, |vs| + RefCounts(parts))
    ensures BindAll(rules, parts, values, Entered(values, free, vs))
      == AllBound(AllNamed(parts, |values|, free, |vs|), Entered(values, free, vs + AllRefValues(rules, parts, values)))
    decreases parts, 0
  {
    hide FreeUpTo, Entered, Lookup, BindingName;
    if parts == [] {
      assert vs + [] == vs;
    } else {
      var found := RefValues(rules, parts[0], values);
      FewerFree(values, free, |vs| + RefCount(parts[0]), |vs| + RefCounts(parts));
      var rest := AllRefValues(rules, parts[1..], values);
      hide *;
      BindIsNamed(rules, parts[0], values, free, vs);
      BindAllNamed(rules, parts[1..], values, free, vs + found);
      Regrouped(vs, found, rest);
      FirstNamed(rules, parts, values, Entered(values, free, vs), |values|, free, |vs|);
    }
  }

  lemma FreeNamesFit(values: Env, n: nat)
    ensures FreeUpTo(values, FreeNames(values, |values|, n), n)
  {
    hide FreeNames, Made, BindingName;
  }

  /** Evaluating any expression whose references resolve: the references get numbered names up to the first one that is
      taken, and all further ones get that name; their values are entered under these names in turn, and the tree is
      checked and evaluated there. */
  lemma BindingDecides(rules: Rules, e: Expr, values: Env)
    requires Resolved(rules, e, values)
    ensures var free := FreeNames(values, |values|, RefCount(e));
      EvaluateBound(rules, e, values)
        == EvaluateDirectly(rules, Named(e, |values|, free, 0), Entered(values, free, RefValues(rules, e, values)))
  {
    hide *;
    var free := FreeNames(values, |values|, RefCount(e));
    FreeNamesFit(values, RefCount(e));
    EnteredStep(values, free, [], Nothing);
    BindIsNamed(rules, e, values, free, []);
    assert [] + RefValues(rules, e, values) == RefValues(rules, e, values);
    BoundIs(rules, e, values);
    DirectlyIs(rules, Named(e, |values|, free, 0), Entered(values, free, RefValues(rules, e, values)));
  }

  lemma DirectlyIs(rules: Rules, e: Expr, values: Env)
    ensures EvaluateDirectly(rules, e, values) == if Validated(rules, e) then Evaluate(rules, e, values) else NotSupported
  {
  }

  // ----- Binding preserves meaning -----

  /** No identifier of the tree is one of the names. */
  predicate Avoids(e: Expr, names: set<string>)
    decreases e, 1
  {
    match e
    case Name(id) => id !in names
    case Node(_, parts) => AllAvoid(parts, names)
    case Logic(_, parts) => AllAvoid(parts, names)
    case Compare(left, _, parts) => Avoids(left, names) && AllAvoid(parts, names)
    case _ => true
  }

  predicate AllAvoid(parts: seq<Expr>, names: set<string>)
    decreases parts, 0
  {
    parts == [] || (Avoids(parts[0], names) && AllAvoid(parts[1..], names))
  }

  lemma AvoidedName(values: Env, bound: Env, c: Env, id: string)
    requires Grown(values, bound) && Grown(bound, c) && id !in Made(|values|, |c|)
    ensures (id in c <==> id in values) && (id in values ==> c[id] == values[id])
  {
    GrownTwice(values, bound, c);
    hide BindingName;
  }

  /** The bound tree means the same in any environment that has grown further. */
  lemma {:induction false} BoundMeansSame(rules: Rules, e: Expr, values: Env, bound: Env, c: Env)
    requires Grown(values, bound) && Clear(bound, RefCount(e)) && Bind(rules, e, values, bound).Bound?
    requires Grown(Bind(rules, e, values, bound).env, c) && Avoids(e, Made(|values|, |c|))
    ensures Evaluate(rules, Bind(rules, e, values, bound).expr, c) == Evaluate(rules, e, values)
    decreases e, 1
  {
    hide BindingName, Lookup, Made, Grown, Clear;
    match e
    case Name(id) => AvoidedName(values, bound, c, id);
    case Ref(path) => MadeEntry(bound, Bind(rules, e, values, bound).env, c);
    case Node(op, parts) => BoundAllSame(rules, parts, values, bound, c);
    case Logic(isAnd, parts) => BoundLogicSame(rules, isAnd, parts, values, bound, c, Truth(isAnd));
    case Compare(left, symbols, parts) =>
      var b := Bind(rules, left, values, bound);
      PartsInTurn(rules, left, parts, values, bound, c);
      BoundMeansSame(rules, left, values, bound, c);
      match Evaluate(rules, left, values) {
        case Got(v) => BoundCompareSame(rules, v, symbols, parts, values, b.env, c);
        case _ =>
      }
    case _ =>
  }

  lemma MadeEntry(bound: Env, env: Env, c: Env)
    requires Grown(env, c)
    ensures forall k :: k in env ==> k in c && c[k] == env[k]
  {
  }

  /** The environment after the first part, on the way to that after the rest. */
  lemma PartsInTurn(rules: Rules, left: Expr, parts: seq<Expr>, values: Env, bound: Env, c: Env)
    requires Grown(values, bound) && Clear(bound, RefCount(left) + RefCounts(parts)) && Bind(rules, left, values, bound).Bound?
    requires BindAll(rules, parts, values, Bind(rules, left, values, bound).env).AllBound?
    requires Grown(BindAll(rules, parts, values, Bind(rules, left, values, bound).env).env, c)
    ensures Clear(bound, RefCount(left)) && Clear(Bind(rules, left, values, bound).env, RefCounts(parts))
    ensures Grown(values, Bind(rules, left, values, bound).env) && Grown(Bind(rules, left, values, bound).env, c)
  {
    hide *;
    var b := Bind(rules, left, values, bound).env;
    BindFits(rules, left, values, bound);
    BindAllFits(rules, parts, values, b);
    ClearBefore(bound, RefCount(left), RefCounts(parts));
    ClearSplits(bound, b, RefCount(left), RefCounts(parts));
    GrownTwice(values, bound, b);
    GrownTwice(b, BindAll(rules, parts, values, b).env, c);
  }

  lemma BoundParts(rules: Rules, parts: seq<Expr>, values: Env, bound: Env)
    requires parts != [] && BindAll(rules, parts, values, bound).AllBound?
    ensures Bind(rules, parts[0], values, bound).Bound?
    ensures var b, all := Bind(rules, parts[0], values, bound), BindAll(rules, parts, values, bound);
      && BindAll(rules, parts[1..], values, b.env).AllBound? && all.env == BindAll(rules, parts[1..], values, b.env).env
      && all.parts != [] && all.parts[0] == b.expr && all.parts[1..] == BindAll(rules, parts[1..], values, b.env).parts
    ensures RefCounts(parts) == RefCount(parts[0]) + RefCounts(parts[1..])
  {
    hide Bind, RefCount;
  }

  lemma {:induction false} BoundAllSame(rules: Rules, parts: seq<Expr>, values: Env, bound: Env, c: Env)
    requires Grown(values, bound) && Clear(bound, RefCounts(parts)) && BindAll(rules, parts, values, bound).AllBound?
    requires Grown(BindAll(rules, parts, values, bound).env, c) && AllAvoid(parts, Made(|values|, |c|))
    ensures EvaluateAll(rules, BindAll(rules, parts, values, bound).parts, c) == EvaluateAll(rules, parts, values)
    decreases parts, 0
  {
    hide Grown, Clear, Made;
    if parts != [] {
      BoundParts(rules, parts, values, bound);
      hide Bind, BindAll, RefCounts;
      var b := Bind(rules, parts[0], values, bound);
      PartsInTurn(rules, parts[0], parts[1..], values, bound, c);
      BoundMeansSame(rules, parts[0], values, bound, c);
      BoundAllSame(rules, parts[1..], values, b.env, c);
    }
  }

  lemma {:induction false} BoundLogicSame(rules: Rules, isAnd: bool, parts: seq<Expr>, values: Env, bound: Env, c: Env, last: Value)
    requires Grown(values, bound) && Clear(bound, RefCounts(parts)) && BindAll(rules, parts, values, bound).AllBound?
    requires Grown(BindAll(rules, parts, values, bound).env, c) && AllAvoid(parts, Made(|values|, |c|))
    ensures EvaluateLogic(rules, isAnd, BindAll(rules, parts, values, bound).parts, c, last) == EvaluateLogic(rules, isAnd, parts, values, last)
    decreases parts, 0
  {
    hide Grown, Clear, Made;
    if parts != [] {
      BoundParts(rules, parts, values, bound);
      hide Bind, BindAll, RefCounts;
      var b := Bind(rules, parts[0], values, bound);
      PartsInTurn(rules, parts[0], parts[1..], values, bound, c);
      BoundMeansSame(rules, parts[0], values, bound, c);
      match Evaluate(rules, parts[0], values)
      case Got(v) => BoundLogicSame(rules, isAnd, parts[1..], values, b.env, c, v);
      case _ =>
    }
  }

  lemma {:induction false} BoundCompareSame(rules: Rules, left: Value, symbols: seq<string>, parts: seq<Expr>, values: Env, bound: Env, c: Env)
    requires Grown(values, bound) && Clear(bound, RefCounts(parts)) && BindAll(rules, parts, values, bound).AllBound?
    requires Grown(BindAll(rules, parts, values, bound).env, c) && AllAvoid(parts, Made(|values|, |c|))
    ensures EvaluateCompare(rules, left, symbols, BindAll(rules, parts, values, bound).parts, c)
      == EvaluateCompare(rules, left, symbols, parts, values)
    decreases parts, 0
  {
    hide Grown, Clear, Made;
    if parts != [] && symbols != [] {
      BoundParts(rules, parts, values, bound);
      hide Bind, BindAll, RefCounts;
      var b := Bind(rules, parts[0], values, bound);
      PartsInTurn(rules, parts[0], parts[1..], values, bound, c);
      BoundMeansSame(rules, parts[0], values, bound, c);
      match Evaluate(rules, parts[0], values)
      case Got(right) => BoundCompareSame(rules, right, symbols[1..], parts[1..], values, b.env, c);
      case _ =>
    }
  }

  /** Checking the tree and evaluating it with references looked up when they are reached. */
  function EvaluateDirectly(rules: Rules, e: Expr, values: Env): Outcome
  {
    if Validated(rules, e) then Evaluate(rules, e, values) else NotSupported
  }

  /** If no environment key and no identifier is one of the names to be made, evaluation after binding and direct
      evaluation give the same result if and only if every reference resolves or direct evaluation fails anyway: an
      unresolved reference always fails the former, even where the latter never reaches it. */
  lemma BindingPreservesMeaning(rules: Rules, e: Expr, values: Env)
    requires Clear(values, RefCount(e)) && Avoids(e, Made(|values|, |values| + RefCount(e)))
    ensures EvaluateBound(rules, e, values) == EvaluateDirectly(rules, e, values)
      <==> Resolved(rules, e, values) || EvaluateDirectly(rules, e, values) == Fails
    ensures !Resolved(rules, e, values) ==> EvaluateBound(rules, e, values) == Fails
  {
    hide *;
    BoundIs(rules, e, values);
    BindFits(rules, e, values, values);
    if Resolved(rules, e, values) {
      var b := Bind(rules, e, values, values);
      BindKeepsValidated(rules, e, values, values);
      GrownItself(values);
      GrownItself(b.env);
      BoundMeansSame(rules, e, values, values, b.env);
    }
  }

  /** A reference that is never reached: direct evaluation stops before it, binding fails. */
  lemma UnreachedReferenceFails(rules: Rules, path: seq<string>)
    requires !rules.truthy(Truth(false)) && path != []
    ensures var e := Logic(true, [Const(Truth(false)), Ref(path)]);
      EvaluateBound(rules, e, map[]) == Fails && EvaluateDirectly(rules, e, map[]) == Got(Truth(false))
  {
    var parts := [Const(Truth(false)), Ref(path)];
    var e := Logic(true, parts);
    assert parts[1..] == [Ref(path)] && parts[1..][1..] == [];
    assert Lookup(rules, path, Fields(map[])) == None;
    assert !AllResolved(rules, parts[1..], map[]);
    BindFits(rules, e, map[], map[]);
    assert Evaluate(rules, parts[0], map[]) == Got(Truth(false));
    assert Evaluate(rules, e, map[]) == EvaluateLogic(rules, true, parts, map[], Truth(true)) == Got(Truth(false));
    assert AllValidated(rules, parts[1..]) && Validated(rules, e);
  }

  lemma BoundIs(rules: Rules, e: Expr, values: Env)
    ensures var b := Bind(rules, e, values, values);
      EvaluateBound(rules, e, values) ==
        if b.Unresolved? then Fails else if Validated(rules, b.expr) then Evaluate(rules, b.expr, b.env) else NotSupported
    ensures EvaluateDirectly(rules, e, values) == if Validated(rules, e) then Evaluate(rules, e, values) else NotSupported
  {
  }

  /** Whatever the environment, an expression is refused as not supported exactly when all references resolve and the
      tree, before or after binding, is not within the supported syntax. */
  lemma RefusedExactly(rules: Rules, e: Expr, values: Env)
    ensures EvaluateBound(rules, e, values) == NotSupported <==> Resolved(rules, e, values) && !Validated(rules, e)
  {
    hide *;
    BoundIs(rules, e, values);
    BindFits(rules, e, values, values);
    var b := Bind(rules, e, values, values);
    if b.Bound? {
      BindKeepsValidated(rules, e, values, values);
      if Validated(rules, b.expr) {
        ValidatedIsSupported(rules, b.expr, b.env);
      }
    }
  }

  /** If the first name to be made is taken, the result is that of the tree with this name for all references. */
  lemma TakenNameDecides(rules: Rules, e: Expr, values: Env)
    requires BindingName(|values|) in values && Resolved(rules, e, values)
    ensures var name := BindingName(|values|);
      EvaluateBound(rules, e, values)
        == EvaluateDirectly(rules, Shared(e, name), values[name := LastValue(rules, e, values, values[name])])
  {
    hide Evaluate, Validated, BindingName, Bind;
    TakenNameIsShared(rules, e, values, values);
  }

  /** The tree that is validated after binding is supported exactly when the tree before binding is. */
  lemma {:induction false} BindKeepsValidated(rules: Rules, e: Expr, values: Env, bound: Env)
    requires Bind(rules, e, values, bound).Bound?
    ensures Validated(rules, Bind(rules, e, values, bound).expr) <==> Validated(rules, e)
    decreases e, 1
  {
    match e
    case Node(op, parts) =>
      BindAllKeepsValidated(rules, parts, values, bound);
      BindKeepsPatterns(rules, parts, values, bound);
    case Logic(_, parts) => BindAllKeepsValidated(rules, parts, values, bound);
    case Compare(left, _, parts) =>
      BindKeepsValidated(rules, left, values, bound);
      BindAllKeepsValidated(rules, parts, values, Bind(rules, left, values, bound).env);
    case _ =>
  }

  lemma {:induction false} BindAllKeepsValidated(rules: Rules, parts: seq<Expr>, values: Env, bound: Env)
    requires BindAll(rules, parts, values, bound).AllBound?
    ensures AllValidated(rules, BindAll(rules, parts, values, bound).parts) <==> AllValidated(rules, parts)
    decreases parts, 0
  {
    if parts != [] {
      BindKeepsValidated(rules, parts[0], values, bound);
      var b := Bind(rules, parts[0], values, bound);
      BindAllKeepsValidated(rules, parts[1..], values, b.env);
      var all := BindAll(rules, parts, values, bound).parts;
      assert all[0] == b.expr && all[1..] == BindAll(rules, parts[1..], values, b.env).parts;
    }
  }

  lemma {:induction false} BindKeepsPatterns(rules: Rules, parts: seq<Expr>, values: Env, bound: Env)
    requires BindAll(rules, parts, values, bound).AllBound?
    ensures |BindAll(rules, parts, values, bound).parts| == |parts|
    ensures parts != [] ==> var first := BindAll(rules, parts, values, bound).parts[0];
      (first.Const? <==> parts[0].Const?) && (first.Const? ==> first == parts[0])
    decreases parts, 0
  {
    if parts != [] {
      BindKeepsPatterns(rules, parts[1..], values, Bind(rules, parts[0], values, bound).env);
    }
  }

  /** A key that is taken by the environment is overwritten, and the expression means something else. */
  lemma CollidingKeyChangesMeaning(rules: Rules)
    requires rules.truthy(Number(2))
    ensures
      var values := map[BindingName(1) := Fields(map["y" := Number(2)])];
      var e := Logic(true, [Ref([BindingName(1), "y"]), Name(BindingName(1))]);
      && Resolved(rules, e, values) && Validated(rules, e)
      && EvaluateBound(rules, e, values) == Got(Number(2)) && EvaluateDirectly(rules, e, values) == Got(Fields(map["y" := Number(2)]))
  {
    assert !Hidden(BindingName(1));
    hide BindingName, Hidden;
    var name := BindingName(1);
    var values := map[name := Fields(map["y" := Number(2)])];
    var first, second := Ref([name, "y"]), Name(name);
    var e := Logic(true, [first, second]);
    FieldOfField(rules, name, "y", Number(2));
    hide Lookup;
    assert |values| == 1;
    PairParts(rules, true, first, second, values, name, values[name]);
    TakenNameDecides(rules, e, values);
    PairParts(rules, true, second, second, values, name, values[name]);
    var env := values[name := Number(2)];
    TwoLinks(rules, second, name, env, Number(2));
    TwoLinks(rules, first, name, values, Number(2));
  }

  lemma PairParts(rules: Rules, isAnd: bool, x: Expr, y: Expr, values: Env, name: string, before: Value)
    ensures var e := Logic(isAnd, [x, y]);
      && (Resolved(rules, e, values) <==> Resolved(rules, x, values) && Resolved(rules, y, values))
      && (Validated(rules, e) <==> Validated(rules, x) && Validated(rules, y))
      && Shared(e, name) == Logic(isAnd, [Shared(x, name), Shared(y, name)])
      && (Resolved(rules, e, values) ==>
            LastValue(rules, e, values, before) == LastValue(rules, y, values, LastValue(rules, x, values, before)))
  {
    var parts := [x, y];
    assert parts[1..] == [y] && parts[1..][1..] == [];
    assert AllShared(parts[1..], name) == [Shared(y, name)] + [];
    assert AllResolved(rules, parts[1..][1..], values);
    assert AllResolved(rules, parts[1..], values) <==> Resolved(rules, y, values);
    if AllResolved(rules, parts, values) {
      var v := LastValue(rules, x, values, before);
      assert LastOfAll(rules, parts[1..], values, v) == LastValue(rules, y, values, v);
    }
    assert AllValidated(rules, parts[1..]) <==> Validated(rules, y);
  }

  lemma FieldOfField(rules: Rules, name: string, field: string, v: Value)
    ensures Lookup(rules, [name, field], Fields(map[name := Fields(map[field := v])])) == Some(v)
  {
    var path := [name, field];
    assert path[1..] == [field] && path[1..][1..] == [];
    assert Lookup(rules, path[1..][1..], v) == Some(v);
    assert Lookup(rules, path[1..], Fields(map[field := v])) == Some(v);
  }

  lemma TwoLinks(rules: Rules, first: Expr, name: string, env: Env, v: Value)
    requires Evaluate(rules, first, env) == Got(v) && rules.truthy(v) && name in env
    ensures Evaluate(rules, Logic(true, [first, Name(name)]), env) == Got(env[name])
  {
    var parts := [first, Name(name)];
    assert parts[1..] == [Name(name)] && parts[1..][1..] == [];
    assert Evaluate(rules, Name(name), env) == Got(env[name]);
    assert EvaluateLogic(rules, true, parts[1..], env, v) == Got(env[name]);
  }

  // ----- The evaluator, step by step -----

  /** Evaluates a tree as the program does, with a loop over the parts of a chain. */
  method EvaluateTree(rules: Rules, e: Expr, env: Env) returns (r: Outcome)
    ensures r == Evaluate(rules, e, env)
    decreases e, 2
  {
    match e
    case Const(v) => return Got(v);
    case Name(id) => return if id in env then Got(env[id]) else Fails;
    case Ref(path) =>
      var found := Lookup(rules, path, Fields(env));
      return if found.Some? then Got(found.value) else Fails;
    case Node(op, parts) =>
      if op.Foreign? {
        return NotSupported;
      }
      var k, values := 0, [];
      while k < |parts|
        invariant k <= |parts|
        invariant EvaluateAll(rules, parts, env) == Prefixed(values, EvaluateAll(rules, parts[k..], env))
      {
        assert parts[k..][0] == parts[k] && parts[k..][1..] == parts[k + 1..];
        var v := EvaluateTree(rules, parts[k], env);
        if !v.Got? {
          return v;
        }
        PrefixedOnce(values, v.value, EvaluateAll(rules, parts[k + 1..], env));
        values, k := values + [v.value], k + 1;
      }
      assert parts[k..] == [] && values + [] == values;
      var result := rules.apply(op, values);
      return if result.Some? then Got(result.value) else Fails;
    case Logic(isAnd, parts) =>
      var k, last := 0, Truth(isAnd);
      while k < |parts|
        invariant k <= |parts|
        invariant EvaluateLogic(rules, isAnd, parts, env, Truth(isAnd)) == EvaluateLogic(rules, isAnd, parts[k..], env, last)
      {
        assert parts[k..][0] == parts[k] && parts[k..][1..] == parts[k + 1..];
        var v := EvaluateTree(rules, parts[k], env);
        if !v.Got? || rules.truthy(v.value) != isAnd {
          return v;
        }
        last, k := v.value, k + 1;
      }
      return Got(last);
    case Compare(left, symbols, parts) =>
      var l := EvaluateTree(rules, left, env);
      if !l.Got? {
        return l;
      }
      var k, current := 0, l.value;
      while k < |parts| && k < |symbols|
        invariant k <= |parts| && k <= |symbols|
        invariant EvaluateCompare(rules, l.value, symbols, parts, env) == EvaluateCompare(rules, current, symbols[k..], parts[k..], env)
      {
        assert parts[k..][0] == parts[k] && parts[k..][1..] == parts[k + 1..];
        assert symbols[k..][0] == symbols[k] && symbols[k..][1..] == symbols[k + 1..];
        var right := EvaluateTree(rules, parts[k], env);
        if !right.Got? {
          return right;
        }
        var holds := rules.compare(symbols[k], current, right.value);
        if holds.None? {
          return Fails;
        }
        if !rules.truthy(holds.value) {
          return Got(Truth(false));
        }
        current, k := right.value, k + 1;
      }
      return Got(Truth(true));
  }

  /** Values found so far, in front of what the remaining parts come to. */
  function Prefixed(values: seq<Value>, rest: AllOutcome): AllOutcome
  {
    match rest
    case AllGot(vs) => AllGot(values + vs)
    case other => other
  }

  lemma PrefixedOnce(values: seq<Value>, v: Value, rest: AllOutcome)
    ensures Prefixed(values, Prefixed([v], rest)) == Prefixed(values + [v], rest)
  {
    if rest.AllGot? {
      assert values + ([v] + rest.values) == (values + [v]) + rest.values;
    }
  }
}
