/** Policy evaluation (policy/types.go, policy/functions.go, policy/operators.go), the
    server's global policy (cmd/concrnt/defaultPolicy.go) and the verdict of
    internal/service/policy.go. Documents may carry any text as a conclusion. */
module Policy {
  import opened Wrappers

  datatype Conclusion = UNSET | OK | NG | ALLOW | DENY | Other(text: string)

  function Or(c: Conclusion, other: Conclusion): Conclusion {
    if c == UNSET then other
    else if other == UNSET then c
    else if (c == DENY && other == ALLOW) || (c == ALLOW && other == DENY) then UNSET
    else if c == DENY || other == DENY then DENY
    else if c == ALLOW || other == ALLOW then ALLOW
    else if (c == OK && other == NG) || (c == NG && other == OK) then UNSET
    else if c == OK || other == OK then OK
    else if c == NG || other == NG then NG
    else UNSET
  }

  /** The left fold of Or, from UNSET. */
  function Fold(cs: seq<Conclusion>): Conclusion {
    if cs == [] then UNSET else Or(Fold(cs[..|cs| - 1]), cs[|cs| - 1])
  }

  lemma OrIsNotAssociative()
    ensures Or(Or(DENY, ALLOW), ALLOW) != Or(DENY, Or(ALLOW, ALLOW))
  {
  }

  /** How strongly a conclusion counts; opposites share a rank. */
  function Rank(c: Conclusion): nat {
    match c
    case UNSET => 0
    case Other(_) => 1
    case OK => 2
    case NG => 2
    case ALLOW => 3
    case DENY => 3
  }

  function Opposite(c: Conclusion): Conclusion
    requires c in {OK, NG, ALLOW, DENY}
  {
    match c
    case OK => NG
    case NG => OK
    case ALLOW => DENY
    case DENY => ALLOW
  }

  /** Nothing in cs outranks c or opposes it. */
  ghost predicate Unopposed(cs: seq<Conclusion>, c: Conclusion)
    requires c in {OK, NG, ALLOW, DENY}
  {
    forall k :: 0 <= k < |cs| ==> cs[k] == c || Rank(cs[k]) < Rank(c)
  }

  lemma OrUnopposed(a: Conclusion, b: Conclusion, c: Conclusion)
    requires c in {OK, NG, ALLOW, DENY}
    requires (a == c || Rank(a) < Rank(c)) && (b == c || Rank(b) < Rank(c))
    ensures if a == c || b == c then Or(a, b) == c else Rank(Or(a, b)) < Rank(c)
  {
  }

  lemma {:induction false} FoldUnopposed(cs: seq<Conclusion>, c: Conclusion)
    requires c in {OK, NG, ALLOW, DENY} && Unopposed(cs, c)
    ensures if c in cs then Fold(cs) == c else Rank(Fold(cs)) < Rank(c)
  {
    if cs != [] {
      var n := |cs| - 1;
      FoldUnopposed(cs[..n], c);
      OrUnopposed(Fold(cs[..n]), cs[n], c);
      assert cs == cs[..n] + [cs[n]];
    }
  }

  lemma SameElements(cs: seq<Conclusion>, ds: seq<Conclusion>)
    requires multiset(cs) == multiset(ds)
    ensures forall c :: c in cs <==> c in ds
  {
    assert forall c :: c in cs <==> c in multiset(cs);
    assert forall c :: c in ds <==> c in multiset(ds);
  }

  /** What one entry contributes does not depend on the order exactly when nothing opposes
      it: every order folds to ALLOW (or to DENY) if and only if the one is there and the
      other is not. */
  lemma DecisiveInAnyOrder(cs: seq<Conclusion>, c: Conclusion)
    requires c in {ALLOW, DENY}
    ensures (forall ds :: multiset(ds) == multiset(cs) ==> Fold(ds) == c) <==> c in cs && Opposite(c) !in cs
  {
    if c in cs && Opposite(c) !in cs {
      forall ds | multiset(ds) == multiset(cs) ensures Fold(ds) == c {
        SameElements(ds, cs);
        FoldUnopposed(ds, c);
      }
    } else {
      var ds := WorstOrder(cs, c);
    }
  }

  /** An order that does not fold to c. */
  lemma WorstOrder(cs: seq<Conclusion>, c: Conclusion) returns (ds: seq<Conclusion>)
    requires c in {ALLOW, DENY} && (c !in cs || Opposite(c) in cs)
    ensures multiset(ds) == multiset(cs) && Fold(ds) != c
  {
    ds := cs;
    if Opposite(c) in cs {
      var k :| 0 <= k < |cs| && cs[k] == Opposite(c);
      ds := LastButOne(cs, k);
    } else {
      FoldUnopposed(cs, c);
    }
  }

  /** The same conclusions with the k-th moved to the end, where it cannot be overruled. */
  lemma LastButOne(cs: seq<Conclusion>, k: nat) returns (ds: seq<Conclusion>)
    requires k < |cs| && cs[k] in {ALLOW, DENY}
    ensures multiset(ds) == multiset(cs) && Fold(ds) != Opposite(cs[k])
  {
    var rest := cs[..k] + cs[k + 1..];
    ds := rest + [cs[k]];
    assert cs == cs[..k] + [cs[k]] + cs[k + 1..];
    FoldMore(rest, cs[k]);
  }

  // ---- Expressions ----

  datatype Value = Null | Bool(b: bool) | Str(s: string) | Num(n: int) | List(vs: seq<Value>) | Obj(fs: map<string, Value>)

  datatype Expr = Expr(op: string, args: seq<Expr>, constant: Value)

  /** What an evaluation can reach: the loaded context, calls to other servers, and the
      owner of a URI. */
  datatype Context = Context(
    load: string -> Option<Value>,
    call: seq<string> -> Option<Value>,
    owner: string -> Option<string>)

  function Eval(c: Context, e: Expr): Option<Value> {
    if e.op == "Const" then Some(e.constant)
    else
      var evaluated := EvalAll(c, e.args);
      if evaluated.None? then None
      else Apply(c, e.op, (if e.constant.Null? then [] else [e.constant]) + evaluated.value)
  }

  /** All arguments are evaluated first; one error is the whole expression's. */
  function EvalAll(c: Context, es: seq<Expr>): Option<seq<Value>> {
    if es == [] then Some([])
    else
      var first := Eval(c, es[0]);
      if first.None? then None
      else
        var rest := EvalAll(c, es[1..]);
        if rest.None? then None else Some([first.value] + rest.value)
  }

  function Apply(c: Context, op: string, args: seq<Value>): Option<Value> {
    if op == "And" then And(args)
    else if op == "Or" then Any(args)
    else if op == "Not" then (if |args| == 1 && args[0].Bool? then Some(Bool(!args[0].b)) else None)
    else if op == "Eq" then (if |args| == 2 && Comparable(args[0]) && Comparable(args[1]) then Some(Bool(args[0] == args[1])) else None)
    else if op == "Contains" then (if |args| == 2 && args[0].List? && Comparable(args[1]) then Some(Bool(args[1] in args[0].vs)) else None)
    else if op == "CCUriOwner" then
      (if |args| == 1 && args[0].Str? && c.owner(args[0].s).Some? then Some(Str(c.owner(args[0].s).value)) else None)
    else if op == "Load" then (if |args| == 1 && args[0].Str? then c.load(args[0].s) else None)
    else if op == "ConcrntCall" then
      (if |args| >= 2 && |args| % 2 == 0 && (forall k :: 0 <= k < |args| ==> args[k].Str?) then c.call(Texts(args)) else None)
    else if op == "IsNotEmpty" then (if |args| == 1 then NotEmpty(args[0]) else None)
    else None
  }

  predicate Comparable(v: Value) {
    !v.List? && !v.Obj?
  }

  function Texts(args: seq<Value>): seq<string>
    requires forall k :: 0 <= k < |args| ==> args[k].Str?
  {
    seq(|args|, k requires 0 <= k < |args| => args[k].s)
  }

  function And(args: seq<Value>): Option<Value> {
    if args == [] then Some(Bool(true))
    else if !args[0].Bool? then None
    else if !args[0].b then Some(Bool(false))
    else And(args[1..])
  }

  function Any(args: seq<Value>): Option<Value> {
    if args == [] then Some(Bool(false))
    else if !args[0].Bool? then None
    else if args[0].b then Some(Bool(true))
    else Any(args[1..])
  }

  /** The first n arguments are this truth value. */
  predicate AllAre(args: seq<Value>, n: nat, b: bool) {
    n <= |args| && forall j :: 0 <= j < n ==> args[j] == Bool(b)
  }

  /** And is true exactly when every argument is; else the first other one decides: false
      makes it false, anything but a truth value an error. */
  lemma {:induction false} AndStops(args: seq<Value>, n: nat)
    requires AllAre(args, n, true) && (n < |args| ==> args[n] != Bool(true))
    ensures And(args) == if n == |args| then Some(Bool(true)) else if args[n].Bool? then Some(Bool(false)) else None
  {
    if n > 0 {
      AndStops(args[1..], n - 1);
    }
  }

  /** Or is false exactly when every argument is; else the first other one decides. */
  lemma {:induction false} AnyStops(args: seq<Value>, n: nat)
    requires AllAre(args, n, false) && (n < |args| ==> args[n] != Bool(false))
    ensures Any(args) == if n == |args| then Some(Bool(false)) else if args[n].Bool? then Some(Bool(true)) else None
  {
    if n > 0 {
      AnyStops(args[1..], n - 1);
    }
  }

  function NotEmpty(v: Value): Option<Value> {
    match v
    case Null => Some(Bool(false))
    case List(vs) => Some(Bool(vs != []))
    case Str(s) => Some(Bool(s != ""))
    case Obj(fs) => Some(Bool(fs != map[]))
    case _ => None
  }

  // ---- Policies ----

  datatype Statement = Statement(action: string, key: string, emit: Conclusion, condition: Expr)

  datatype PolicyDoc = PolicyDoc(statements: seq<Statement>, defaults: map<string, Conclusion>)

  datatype EvaluationSet = EvaluationSet(policy: PolicyDoc, errored: bool, context: Context)

  /** The statement key as a pattern: a star stands for any text without a line break. */
  predicate Glob(pattern: string, key: string) {
    if pattern == "" then key == ""
    else if pattern[0] == '*' then
      Glob(pattern[1..], key) || (key != "" && key[0] != '\n' && Glob(pattern, key[1..]))
    else key != "" && key[0] == pattern[0] && Glob(pattern[1..], key[1..])
  }

  lemma {:induction false} StarMatches(key: string)
    ensures Glob("*", key) <==> '\n' !in key
    decreases |key|
  {
    if key != "" {
      StarMatches(key[1..]);
      assert "*"[1..] == "";
      assert key == [key[0]] + key[1..];
    }
  }

  predicate Applies(s: Statement, action: string, key: string) {
    s.action == action && Glob(s.key, key)
  }

  /** What a statement adds to the fold: its emit, if its condition is true. */
  function Emitted(c: Context, s: Statement, action: string, key: string): seq<Conclusion> {
    if Applies(s, action, key) && Eval(c, s.condition) == Some(Bool(true)) then [s.emit] else []
  }

  function AllEmitted(c: Context, ss: seq<Statement>, action: string, key: string): seq<Conclusion> {
    if ss == [] then []
    else AllEmitted(c, ss[..|ss| - 1], action, key) + Emitted(c, ss[|ss| - 1], action, key)
  }

  /** The default, unless it is missing or the empty text. */
  function Default(p: PolicyDoc, action: string): Conclusion {
    if action in p.defaults && p.defaults[action] != Other("") then p.defaults[action] else UNSET
  }

  function PolicyConclusion(c: Context, p: PolicyDoc, action: string, key: string): Conclusion {
    var folded := Fold(AllEmitted(c, p.statements, action, key));
    if folded == UNSET then Default(p, action) else folded
  }

  lemma FoldMore(cs: seq<Conclusion>, c: Conclusion)
    ensures Fold(cs + [c]) == Or(Fold(cs), c)
  {
    assert (cs + [c])[..|cs|] == cs;
  }

  lemma OneStatementMore(c: Context, ss: seq<Statement>, i: nat, action: string, key: string)
    requires i < |ss|
    ensures
      var folded := Fold(AllEmitted(c, ss[..i], action, key));
      Fold(AllEmitted(c, ss[..i + 1], action, key))
        == if Applies(ss[i], action, key) && Eval(c, ss[i].condition) == Some(Bool(true)) then Or(folded, ss[i].emit) else folded
  {
    var emitted := AllEmitted(c, ss[..i], action, key);
    assert ss[..i + 1][..i] == ss[..i];
    assert AllEmitted(c, ss[..i + 1], action, key) == emitted + Emitted(c, ss[i], action, key);
    FoldMore(emitted, ss[i].emit);
    assert emitted + [] == emitted;
  }

  /** EvaluatePolicy: pick the statements, fold what they emit, fall back to the default. */
  method EvaluatePolicy(c: Context, p: PolicyDoc, action: string, key: string) returns (conclusion: Conclusion)
    ensures conclusion == PolicyConclusion(c, p, action, key)
  {
    conclusion := UNSET;
    for i := 0 to |p.statements|
      invariant conclusion == Fold(AllEmitted(c, p.statements[..i], action, key))
    {
      var stmt := p.statements[i];
      OneStatementMore(c, p.statements, i, action, key);
      if stmt.action == action && Glob(stmt.key, key) {
        var result := Eval(c, stmt.condition);
        if result == Some(Bool(true)) {
          conclusion := Or(conclusion, stmt.emit);
        }
      }
    }
    assert p.statements[..|p.statements|] == p.statements;
    if conclusion == UNSET && action in p.defaults && p.defaults[action] != Other("") {
      conclusion := p.defaults[action];
    }
  }

  // ---- Layers and stacks ----

  function SetConclusion(e: EvaluationSet, action: string, key: string): Conclusion {
    if e.errored then (if action in e.policy.defaults then e.policy.defaults[action] else UNSET)
    else PolicyConclusion(e.context, e.policy, action, key)
  }

  function Conclusions(layer: seq<EvaluationSet>, action: string, key: string): (cs: seq<Conclusion>)
    ensures |cs| == |layer|
  {
    if layer == [] then []
    else Conclusions(layer[..|layer| - 1], action, key) + [SetConclusion(layer[|layer| - 1], action, key)]
  }

  function LayerConclusion(layer: seq<EvaluationSet>, action: string, key: string): Conclusion {
    Fold(Conclusions(layer, action, key))
  }

  predicate Final(c: Conclusion) {
    c == ALLOW || c == DENY
  }

  /** The first final layer conclusion, else the last one that concluded anything. */
  function Decide(ls: seq<Conclusion>, soFar: Conclusion): Conclusion {
    if ls == [] then soFar
    else if Final(ls[0]) then ls[0]
    else Decide(ls[1..], if ls[0] == UNSET then soFar else ls[0])
  }

  function StackConclusion(stack: seq<seq<EvaluationSet>>, action: string, key: string): Conclusion {
    Decide(LayerConclusions(stack, action, key), UNSET)
  }

  function LayerConclusions(stack: seq<seq<EvaluationSet>>, action: string, key: string): (ls: seq<Conclusion>)
    ensures |ls| == |stack|
    ensures forall k :: 0 <= k < |stack| ==> ls[k] == LayerConclusion(stack[k], action, key)
  {
    if stack == [] then [] else [LayerConclusion(stack[0], action, key)] + LayerConclusions(stack[1..], action, key)
  }

  /** The earliest final conclusion is the answer. */
  lemma {:induction false} FirstFinalDecides(ls: seq<Conclusion>, soFar: Conclusion, k: nat)
    requires k < |ls| && Final(ls[k]) && forall j :: 0 <= j < k ==> !Final(ls[j])
    ensures Decide(ls, soFar) == ls[k]
  {
    if k > 0 {
      FirstFinalDecides(ls[1..], if ls[0] == UNSET then soFar else ls[0], k - 1);
    }
  }

  /** With no final conclusion, the latest one that is set is the answer. */
  lemma {:induction false} LastSetDecides(ls: seq<Conclusion>, soFar: Conclusion, k: nat)
    requires k < |ls| && ls[k] != UNSET
    requires forall j :: 0 <= j < |ls| ==> !Final(ls[j])
    requires forall j :: k < j < |ls| ==> ls[j] == UNSET
    ensures Decide(ls, soFar) == ls[k]
  {
    if k > 0 {
      LastSetDecides(ls[1..], if ls[0] == UNSET then soFar else ls[0], k - 1);
    } else {
      AllUnsetDecides(ls[1..], ls[0]);
    }
  }

  lemma {:induction false} AllUnsetDecides(ls: seq<Conclusion>, soFar: Conclusion)
    requires forall j :: 0 <= j < |ls| ==> ls[j] == UNSET
    ensures Decide(ls, soFar) == soFar
  {
    if ls != [] {
      AllUnsetDecides(ls[1..], soFar);
    }
  }

  /** A layer that concludes nothing is neutral wherever it stands. */
  lemma {:induction false} UnsetIsNeutral(a: seq<Conclusion>, b: seq<Conclusion>, soFar: Conclusion)
    ensures Decide(a + [UNSET] + b, soFar) == Decide(a + b, soFar)
  {
    if a == [] {
      assert a + [UNSET] + b == [UNSET] + b && a + b == b;
    } else {
      assert (a + [UNSET] + b)[1..] == a[1..] + [UNSET] + b && (a + b)[1..] == a[1..] + b;
      if !Final(a[0]) { UnsetIsNeutral(a[1..], b, if a[0] == UNSET then soFar else a[0]); }
    }
  }

  method EvaluateLayer(layer: seq<EvaluationSet>, action: string, key: string) returns (conclusion: Conclusion)
    ensures conclusion == LayerConclusion(layer, action, key)
  {
    conclusion := UNSET;
    for i := 0 to |layer|
      invariant conclusion == Fold(Conclusions(layer[..i], action, key))
    {
      var e := layer[i];
      assert layer[..i + 1][..i] == layer[..i];
      FoldMore(Conclusions(layer[..i], action, key), SetConclusion(e, action, key));
      if e.errored {
        conclusion := Or(conclusion, if action in e.policy.defaults then e.policy.defaults[action] else UNSET);
      } else {
        var result := EvaluatePolicy(e.context, e.policy, action, key);
        conclusion := Or(conclusion, result);
      }
    }
    assert layer[..|layer|] == layer;
  }

  /** EvaluateStack. */
  method EvaluateStack(stack: seq<seq<EvaluationSet>>, action: string, key: string) returns (conclusion: Conclusion)
    ensures conclusion == StackConclusion(stack, action, key)
  {
    conclusion := UNSET;
    ghost var ls := LayerConclusions(stack, action, key);
    assert ls[0..] == ls;
    for i := 0 to |stack|
      invariant Decide(ls[i..], conclusion) == Decide(ls, UNSET)
    {
      assert ls[i..][1..] == ls[i + 1..];
      var layer := EvaluateLayer(stack[i], action, key);
      if layer == DENY || layer == ALLOW {
        return layer;
      }
      if layer != UNSET {
        conclusion := layer;
      }
    }
  }

  // ---- The server's verdict ----

  function Load(path: string): Expr {
    Expr("Load", [], Str(path))
  }

  function OwnerOf(path: string): Expr {
    Expr("CCUriOwner", [Load(path)], Null)
  }

  function Same(a: Expr, b: Expr): Expr {
    Expr("Eq", [a, b], Null)
  }

  const OWNS_KEY: Expr := Same(Load("requester.ccid"), OwnerOf("self.key"))
  const WROTE: Expr := Same(Load("requester.ccid"), Load("self.author"))
  const IS_LOCAL: Expr := Same(Load("requester.domain"), Load("globals.fqdn"))

  function Either(a: Expr, b: Expr): Expr {
    Expr("Or", [a, b], Null)
  }

  function Both(a: Expr, b: Expr): Expr {
    Expr("And", [a, b], Null)
  }

  const GLOBAL: PolicyDoc := PolicyDoc([
    Statement("record:create", "*", ALLOW, Both(IS_LOCAL, OWNS_KEY)),
    Statement("record:create", "*", OK, Both(IS_LOCAL, Same(OwnerOf("self.key"), Load("globals.fqdn")))),
    Statement("record:read", "*", ALLOW, OWNS_KEY),
    Statement("record:update", "*", ALLOW, Either(WROTE, OWNS_KEY)),
    Statement("record:delete", "*", ALLOW, Either(WROTE, OWNS_KEY)),
    Statement("association:delete", "*", ALLOW, Either(WROTE, Same(Load("requester.ccid"), OwnerOf("self.associate"))))],
    map["record:create" := NG, "record:read" := OK, "record:update" := NG, "record:delete" := NG,
        "association:create" := OK, "association:read" := OK, "association:delete" := NG])

  /** PolicyService.Eval: the global policy is the first layer; only ALLOW and OK pass. */
  predicate Permits(c: Context, additional: seq<seq<EvaluationSet>>, action: string, key: string) {
    StackConclusion([[EvaluationSet(GLOBAL, false, c)]] + additional, action, key) in {ALLOW, OK}
  }

  lemma EvalSingle(c: Context, a: Expr)
    requires Eval(c, a).Some?
    ensures EvalAll(c, [a]) == Some([Eval(c, a).value])
  {
    var es := [a];
    assert es[0] == a && es[1..] == [];
    assert [Eval(c, a).value] + [] == [Eval(c, a).value];
  }

  lemma EvalPair(c: Context, a: Expr, b: Expr)
    requires Eval(c, a).Some? && Eval(c, b).Some?
    ensures EvalAll(c, [a, b]) == Some([Eval(c, a).value, Eval(c, b).value])
  {
    var es := [a, b];
    assert es[0] == a && es[1..] == [b];
    EvalSingle(c, b);
    assert [Eval(c, a).value] + [Eval(c, b).value] == [Eval(c, a).value, Eval(c, b).value];
  }

  lemma EvalOne(c: Context, op: string, a: Expr)
    requires op != "Const" && Eval(c, a).Some?
    ensures Eval(c, Expr(op, [a], Null)) == Apply(c, op, [Eval(c, a).value])
  {
    EvalSingle(c, a);
    assert [] + [Eval(c, a).value] == [Eval(c, a).value];
  }

  lemma EvalTwo(c: Context, op: string, a: Expr, b: Expr)
    requires op != "Const" && Eval(c, a).Some? && Eval(c, b).Some?
    ensures Eval(c, Expr(op, [a, b], Null)) == Apply(c, op, [Eval(c, a).value, Eval(c, b).value])
  {
    EvalPair(c, a, b);
    assert [] + [Eval(c, a).value, Eval(c, b).value] == [Eval(c, a).value, Eval(c, b).value];
  }

  lemma EvalLoad(c: Context, path: string)
    ensures Eval(c, Load(path)) == c.load(path)
  {
  }

  /** The requester, the record's own key and its author as the context holds them. The
      key a policy is evaluated for may be another: a delete may address the record by its
      document id. */
  predicate Describes(c: Context, requester: string, self: string, author: Value) {
    && c.load("requester.ccid") == Some(Str(requester))
    && c.load("self.key") == Some(Str(self))
    && c.load("self.author") == Some(author) && Comparable(author)
    && c.owner(self).Some?
  }

  lemma OwnsKeyMeans(c: Context, requester: string, self: string, author: Value)
    requires Describes(c, requester, self, author)
    ensures Eval(c, OWNS_KEY) == Some(Bool(c.owner(self).value == requester))
  {
    EvalLoad(c, "requester.ccid");
    EvalLoad(c, "self.key");
    EvalOne(c, "CCUriOwner", Load("self.key"));
    EvalTwo(c, "Eq", Load("requester.ccid"), OwnerOf("self.key"));
  }

  lemma WroteMeans(c: Context, requester: string, self: string, author: Value)
    requires Describes(c, requester, self, author)
    ensures Eval(c, WROTE) == Some(Bool(author == Str(requester)))
  {
    EvalLoad(c, "requester.ccid");
    EvalLoad(c, "self.author");
    EvalTwo(c, "Eq", Load("requester.ccid"), Load("self.author"));
  }

  lemma EitherMeans(c: Context, requester: string, self: string, author: Value)
    requires Describes(c, requester, self, author)
    ensures Eval(c, Either(WROTE, OWNS_KEY)) == Some(Bool(author == Str(requester) || c.owner(self).value == requester))
  {
    WroteMeans(c, requester, self, author);
    OwnsKeyMeans(c, requester, self, author);
    EvalTwo(c, "Or", WROTE, OWNS_KEY);
    var b := Bool(c.owner(self).value == requester);
    assert Any([b]) == Some(b);
    assert [Bool(author == Str(requester)), b][1..] == [b];
  }

  /** Where only one statement has the action, it alone is emitted or not. */
  lemma {:induction false} OnlyStatement(c: Context, ss: seq<Statement>, j: nat, action: string, key: string)
    requires j < |ss| && forall i :: 0 <= i < |ss| && i != j ==> ss[i].action != action
    ensures AllEmitted(c, ss, action, key) == Emitted(c, ss[j], action, key)
  {
    var n := |ss| - 1;
    if j < n {
      OnlyStatement(c, ss[..n], j, action, key);
    } else {
      NoStatement(c, ss[..n], action, key);
    }
  }

  lemma {:induction false} NoStatement(c: Context, ss: seq<Statement>, action: string, key: string)
    requires forall i :: 0 <= i < |ss| ==> ss[i].action != action
    ensures AllEmitted(c, ss, action, key) == []
  {
    if ss != [] {
      NoStatement(c, ss[..|ss| - 1], action, key);
    }
  }

  /** The statement of the global policy for an action that has one. */
  function StatementFor(action: string): nat
    requires action in {"record:read", "record:update", "record:delete"}
  {
    if action == "record:read" then 2 else if action == "record:update" then 3 else 4
  }

  /** A record's own author counts, except for reading. */
  predicate Entitled(c: Context, requester: string, self: string, author: Value, action: string)
    requires c.owner(self).Some?
  {
    c.owner(self).value == requester || (action != "record:read" && author == Str(requester))
  }

  lemma OnlyOneFor(action: string)
    requires action in {"record:read", "record:update", "record:delete"}
    ensures
      var ss, j := GLOBAL.statements, StatementFor(action);
      j < |ss| && ss[j].action == action && forall i :: 0 <= i < |ss| && i != j ==> ss[i].action != action
  {
    var ss := GLOBAL.statements;
    assert ss[0].action == "record:create" && ss[1].action == "record:create" && ss[5].action == "association:delete";
    assert ss[2].action == "record:read" && ss[3].action == "record:update" && ss[4].action == "record:delete";
  }

  lemma ConditionMeans(c: Context, requester: string, self: string, author: Value, action: string)
    requires Describes(c, requester, self, author) && action in {"record:read", "record:update", "record:delete"}
    ensures
      var stmt := GLOBAL.statements[StatementFor(action)];
      stmt.key == "*" && stmt.emit == ALLOW && Eval(c, stmt.condition) == Some(Bool(Entitled(c, requester, self, author, action)))
  {
    if action == "record:read" {
      OwnsKeyMeans(c, requester, self, author);
    } else {
      EitherMeans(c, requester, self, author);
    }
  }

  lemma FoldOne(conclusion: Conclusion)
    ensures Fold([conclusion]) == Or(UNSET, conclusion)
  {
    FoldMore([], conclusion);
  }

  /** The global layer on a record's read, update or delete: ALLOW exactly for the entitled
      on a key without line breaks, else its default. */
  lemma GlobalLayer(c: Context, requester: string, self: string, author: Value, action: string, key: string)
    requires Describes(c, requester, self, author) && action in {"record:read", "record:update", "record:delete"}
    ensures PolicyConclusion(c, GLOBAL, action, key)
      == if Entitled(c, requester, self, author, action) && '\n' !in key then ALLOW else GLOBAL.defaults[action]
  {
    OnlyOneFor(action);
    OnlyStatement(c, GLOBAL.statements, StatementFor(action), action, key);
    StarMatches(key);
    ConditionMeans(c, requester, self, author, action);
    FoldOne(ALLOW);
  }

  lemma FirstLayer(c: Context, additional: seq<seq<EvaluationSet>>, action: string, key: string)
    ensures StackConclusion([[EvaluationSet(GLOBAL, false, c)]] + additional, action, key)
      == Decide([PolicyConclusion(c, GLOBAL, action, key)] + LayerConclusions(additional, action, key), UNSET)
  {
    var first := [EvaluationSet(GLOBAL, false, c)];
    assert ([first] + additional)[1..] == additional;
    assert first[..0] == [];
    assert Conclusions(first, action, key) == [PolicyConclusion(c, GLOBAL, action, key)];
    FoldMore([], PolicyConclusion(c, GLOBAL, action, key));
  }

  /** A namespace owner's read, update or delete of a key without line breaks succeeds
      whatever the additional stack is, and so do an author's update and delete. */
  lemma OwnerAlwaysMay(c: Context, requester: string, self: string, author: Value, action: string, key: string, additional: seq<seq<EvaluationSet>>)
    requires Describes(c, requester, self, author) && action in {"record:read", "record:update", "record:delete"}
    requires Entitled(c, requester, self, author, action) && '\n' !in key
    ensures Permits(c, additional, action, key)
  {
    GlobalLayer(c, requester, self, author, action, key);
    FirstLayer(c, additional, action, key);
  }

  /** The condition is exact: with no additional stack, an update or delete succeeds for
      the entitled on keys without line breaks and for nobody else. */
  lemma MayAloneExactly(c: Context, requester: string, self: string, author: Value, action: string, key: string)
    requires Describes(c, requester, self, author) && action in {"record:update", "record:delete"}
    ensures Permits(c, [], action, key) <==> Entitled(c, requester, self, author, action) && '\n' !in key
  {
    GlobalLayer(c, requester, self, author, action, key);
    FirstLayer(c, [], action, key);
  }
}
