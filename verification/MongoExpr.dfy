/**
 * The part of MongoDB's aggregation language that the adapter's updates are written in: expressions over one
 * document, and update pipelines of $set and $unset stages.
 */
module MongoExpr {
  import opened Ordering


  /** A BSON value. Dates are milliseconds since the epoch. */
  datatype Value = Missing | Null | Num(n: int) | Str(s: string) | Bool(b: bool) | Date(ms: int)

  /** A document holds no Missing values: a field that is missing is simply not there. */
  type Document = map<string, Value>

  datatype Expr =
    | Field(name: string)
    | Literal(value: Value)
    | Gt(left: Expr, right: Expr)
    | Gte(left: Expr, right: Expr)
    | Lt(left: Expr, right: Expr)
    | Lte(left: Expr, right: Expr)
    | Eq(left: Expr, right: Expr)
    | And(all: seq<Expr>)
    | Or(any: seq<Expr>)
    | Not(operand: Expr)
    | Cond(test: Expr, yes: Expr, no: Expr)
    | Add(left: Expr, right: Expr)
    | IfNull(operand: Expr, fallback: Expr)

  datatype Stage = Set(fields: map<string, Expr>) | Unset(names: set<string>)

  /** Values of different types compare by type. */
  function Rank(v: Value): int {
    match v
    case Missing => 0
    case Null => 1
    case Num(_) => 2
    case Str(_) => 3
    case Bool(_) => 4
    case Date(_) => 5
  }

  predicate Less(a: Value, b: Value) {
    if Rank(a) != Rank(b) then Rank(a) < Rank(b)
    else if a.Num? then a.n < b.n
    else if a.Str? then TextLess(a.s, b.s)
    else if a.Bool? then !a.b && b.b
    else if a.Date? then a.ms < b.ms
    else false
  }

  /** Missing, null, false and zero count as false. */
  predicate Truthy(v: Value) {
    match v
    case Missing => false
    case Null => false
    case Num(n) => n != 0
    case Bool(b) => b
    case Str(_) => true
    case Date(_) => true
  }

  function Plus(a: Value, b: Value): Value {
    if a.Num? && b.Num? then Num(a.n + b.n)
    else if a.Date? && b.Num? then Date(a.ms + b.n)
    else if a.Num? && b.Date? then Date(a.n + b.ms)
    else Null
  }

  function Read(d: Document, name: string): Value {
    if name in d then d[name] else Missing
  }

  function Eval(e: Expr, d: Document): Value {
    match e
    case Field(name) => Read(d, name)
    case Literal(v) => v
    case Gt(a, b) => Bool(Less(Eval(b, d), Eval(a, d)))
    case Gte(a, b) => Bool(!Less(Eval(a, d), Eval(b, d)))
    case Lt(a, b) => Bool(Less(Eval(a, d), Eval(b, d)))
    case Lte(a, b) => Bool(!Less(Eval(b, d), Eval(a, d)))
    case Eq(a, b) => Bool(Eval(a, d) == Eval(b, d))
    case And(es) => Bool(forall i :: 0 <= i < |es| ==> Truthy(Eval(es[i], d)))
    case Or(es) => Bool(exists i :: 0 <= i < |es| && Truthy(Eval(es[i], d)))
    case Not(a) => Bool(!Truthy(Eval(a, d)))
    case Cond(c, a, b) => if Truthy(Eval(c, d)) then Eval(a, d) else Eval(b, d)
    case Add(a, b) => Plus(Eval(a, d), Eval(b, d))
    case IfNull(a, b) => var v := Eval(a, d); if v.Missing? || v.Null? then Eval(b, d) else v
  }

  lemma AndOfTwo(a: Expr, b: Expr, d: Document)
    ensures Eval(And([a, b]), d) == Bool(Truthy(Eval(a, d)) && Truthy(Eval(b, d)))
  {
    var es := [a, b];
    assert es[0] == a && es[1] == b;
    assert Eval(And(es), d) == Bool(forall i :: 0 <= i < |es| ==> Truthy(Eval(es[i], d)));
  }

  lemma OrOfTwo(a: Expr, b: Expr, d: Document)
    ensures Eval(Or([a, b]), d) == Bool(Truthy(Eval(a, d)) || Truthy(Eval(b, d)))
  {
    var es := [a, b];
    assert es[0] == a && es[1] == b;
    assert Eval(Or(es), d) == Bool(exists i :: 0 <= i < |es| && Truthy(Eval(es[i], d)));
  }

  /** Every expression of a $set stage reads the document as it was before the stage. */
  function Apply(stage: Stage, d: Document): Document {
    match stage
    case Set(fields) =>
      map k | k in d.Keys + fields.Keys && (k in fields ==> Eval(fields[k], d) != Missing) ::
        if k in fields then Eval(fields[k], d) else d[k]
    case Unset(names) => map k | k in d && k !in names :: d[k]
  }

  /** After a $set stage, a field it names reads as its expression did, and any other as before. */
  lemma SetReads(fields: map<string, Expr>, d: Document, name: string)
    ensures Read(Apply(Set(fields), d), name) == if name in fields then Eval(fields[name], d) else Read(d, name)
  {
  }

  lemma UnsetReads(names: set<string>, d: Document, name: string)
    ensures Read(Apply(Unset(names), d), name) == if name in names then Missing else Read(d, name)
  {
  }

  function Update(pipeline: seq<Stage>, d: Document): Document
    decreases |pipeline|
  {
    if pipeline == [] then d else Update(pipeline[1..], Apply(pipeline[0], d))
  }

  lemma OneStage(s: Stage, d: Document)
    ensures Update([s], d) == Apply(s, d)
  {
    assert [s][1..] == [];
  }

  lemma ThreeStages(s: Stage, t: Stage, u: Stage, d: Document)
    ensures Update([s, t, u], d) == Apply(u, Apply(t, Apply(s, d)))
  {
    assert [s, t, u][1..] == [t, u] && [t, u][1..] == [u];
    OneStage(u, Apply(t, Apply(s, d)));
  }
}
