/**
 * The SPDX license expression checker of the release script, against the
 * grammar of Annex D of SPDX 2.3 over allow-listed identifiers.
 */
module Spdx {
  import opened Prelude

  /**
   * Identifier look-ups, which ignore case; how letters fold is not part of
   * this model.
   */
  datatype Ids = Ids(license: string -> bool, exception: string -> bool, refused: string -> bool)

  predicate Operator(t: string) {
    t == "AND" || t == "OR" || t == "WITH"
  }

  predicate Joins(t: string) {
    t == "AND" || t == "OR"
  }

  predicate Paren(t: string) {
    t == "(" || t == ")"
  }

  /** A license token without its `+`. */
  function Base(t: string): string {
    if t != "" && t[|t| - 1] == '+' then t[..|t| - 1] else t
  }

  predicate LicenseToken(ids: Ids, t: string) {
    !Paren(t) && !Operator(t) && !ids.refused(t) && ids.license(Base(t))
  }

  predicate ExceptionToken(ids: Ids, t: string) {
    !Paren(t) && !Operator(t) && ids.exception(t)
  }

  // ------------------------------------------------------------- the grammar

  predicate Simple(ids: Ids, ts: seq<string>) {
    |ts| == 1 && LicenseToken(ids, ts[0])
  }

  predicate With(ids: Ids, ts: seq<string>) {
    |ts| == 3 && LicenseToken(ids, ts[0]) && ts[1] == "WITH" && ExceptionToken(ids, ts[2])
  }

  /** compound-expression, in the words of the annex: ambiguous, and without a parser in mind. */
  predicate Derives(ids: Ids, ts: seq<string>)
    decreases |ts|
  {
    || Simple(ids, ts)
    || With(ids, ts)
    || (|ts| >= 2 && ts[0] == "(" && ts[|ts| - 1] == ")" && Derives(ids, ts[1..|ts| - 1]))
    || exists k :: 0 < k < |ts| && Joins(ts[k]) && Derives(ids, ts[..k]) && Derives(ids, ts[k + 1..])
  }

  // -------------------------------------------------------------- the parser

  datatype Problem =
    | Empty | EndsEarly | Unclosed | Unopened | CloseForLicense | OperatorForLicense
    | Refused | UnknownLicense | NoException | UnknownException | WithAfterTerm | Unexpected

  /** The state after a success: the index, and whether WITH may still follow. */
  datatype Parsed = Parsed(index: nat, afterLicense: bool)

  /** What is wrong at a token that cannot continue the expression. */
  function Stray(ts: seq<string>, i: nat): Problem
    requires i < |ts|
  {
    if ts[i] == "WITH" then WithAfterTerm else if ts[i] == ")" then Unopened else Unexpected
  }

  function Term(ids: Ids, ts: seq<string>, i: nat): (r: Result<Parsed, Problem>)
    requires i <= |ts|
    ensures r.Ok? ==> i < r.value.index <= |ts|
    decreases |ts| - i, 0
  {
    if i == |ts| then Err(if ts == [] then Empty else EndsEarly)
    else if ts[i] == "(" then
      match Compound(ids, ts, i + 1)
      case Err(e) => Err(e)
      case Ok(p) =>
        if p.index == |ts| then Err(Unclosed)
        else if ts[p.index] != ")" then Err(Stray(ts, p.index))
        else Ok(Parsed(p.index + 1, false))
    else if ts[i] == ")" then Err(CloseForLicense)
    else if Operator(ts[i]) then Err(OperatorForLicense)
    else if ids.refused(ts[i]) then Err(Refused)
    else if !ids.license(Base(ts[i])) then Err(UnknownLicense)
    else if i + 1 == |ts| || ts[i + 1] != "WITH" then Ok(Parsed(i + 1, true))
    else if i + 2 == |ts| || Paren(ts[i + 2]) || Operator(ts[i + 2]) then Err(NoException)
    else if !ids.exception(ts[i + 2]) then Err(UnknownException)
    else Ok(Parsed(i + 3, false))
  }

  function Compound(ids: Ids, ts: seq<string>, i: nat): (r: Result<Parsed, Problem>)
    requires i <= |ts|
    ensures r.Ok? ==> i < r.value.index <= |ts|
    decreases |ts| - i, 1
  {
    match Term(ids, ts, i)
    case Err(e) => Err(e)
    case Ok(p) => if p.index < |ts| && Joins(ts[p.index]) then Compound(ids, ts, p.index + 1) else Ok(p)
  }

  function Check(ids: Ids, ts: seq<string>): Option<Problem> {
    match Compound(ids, ts, 0)
    case Err(e) => Some(e)
    case Ok(p) => if p.index < |ts| then Some(Stray(ts, p.index)) else None
  }

  /** The parser as it runs: one index that `term` and `compound` share. */
  class Parser {
    const ids: Ids
    const tokens: seq<string>
    var index: nat
    var afterLicense: bool

    constructor (ids: Ids, tokens: seq<string>)
      ensures this.ids == ids && this.tokens == tokens && index == 0
    {
      this.ids, this.tokens := ids, tokens;
      index, afterLicense := 0, false;
    }

    /** A result of `term` or `compound` as the shared variables show it. */
    predicate Shows(r: Result<Parsed, Problem>, problem: Option<Problem>)
      reads this
    {
      match r
      case Err(e) => problem == Some(e)
      case Ok(p) => problem == None && p == Parsed(index, afterLicense)
    }

    method ParseTerm() returns (problem: Option<Problem>)
      requires index <= |tokens|
      modifies this
      ensures index <= |tokens| && Shows(Term(ids, tokens, old(index)), problem)
      ensures problem.None? ==> old(index) < index
      decreases |tokens| - index, 0
    {
      afterLicense := false;
      if index == |tokens| {
        return Some(if |tokens| == 0 then Empty else EndsEarly);
      }
      var token := tokens[index];
      if token == "(" {
        index := index + 1;
        problem := ParseCompound();
        if problem.Some? {
          return;
        }
        if index == |tokens| {
          return Some(Unclosed);
        }
        if tokens[index] != ")" {
          return Some(Stray(tokens, index));
        }
        index := index + 1;
        afterLicense := false;
        return None;
      }
      if token == ")" {
        return Some(CloseForLicense);
      }
      if Operator(token) {
        return Some(OperatorForLicense);
      }
      index := index + 1;
      if ids.refused(token) {
        return Some(Refused);
      }
      if !ids.license(Base(token)) {
        return Some(UnknownLicense);
      }
      if index == |tokens| || tokens[index] != "WITH" {
        afterLicense := true;
        return None;
      }
      index := index + 1;
      if index == |tokens| || Paren(tokens[index]) || Operator(tokens[index]) {
        return Some(NoException);
      }
      var exception := tokens[index];
      index := index + 1;
      if !ids.exception(exception) {
        return Some(UnknownException);
      }
      problem := None;
    }

    method ParseCompound() returns (problem: Option<Problem>)
      requires index <= |tokens|
      modifies this
      ensures index <= |tokens| && Shows(Compound(ids, tokens, old(index)), problem)
      ensures problem.None? ==> old(index) < index
      decreases |tokens| - index, 1
    {
      hide Term, Joins;
      ghost var start := index;
      problem := ParseTerm();
      while problem.None? && index < |tokens| && Joins(tokens[index])
        invariant index <= |tokens|
        invariant problem.None? ==> start < index
        invariant Compound(ids, tokens, start)
               == match problem
                  case Some(e) => Err(e)
                  case None =>
                    if index < |tokens| && Joins(tokens[index]) then Compound(ids, tokens, index + 1)
                    else Ok(Parsed(index, afterLicense))
        decreases problem.None?, |tokens| - index
      {
        index := index + 1;
        problem := ParseTerm();
      }
    }

    /** spdxExpressionProblem */
    method Run() returns (problem: Option<Problem>)
      requires index == 0
      modifies this
      ensures problem == Check(ids, tokens)
    {
      problem := ParseCompound();
      if problem.None? && index < |tokens| {
        problem := Some(Stray(tokens, index));
      }
    }
  }

  // --------------------------------------------------------------- soundness

  lemma DerivesJoined(ids: Ids, ts: seq<string>, i: nat, k: nat, j: nat)
    requires i < k < j <= |ts| && Joins(ts[k])
    requires Derives(ids, ts[i..k]) && Derives(ids, ts[k + 1..j])
    ensures Derives(ids, ts[i..j])
  {
    var all := ts[i..j];
    assert all[..k - i] == ts[i..k] && all[k - i + 1..] == ts[k + 1..j] && all[k - i] == ts[k];
  }

  lemma TermSound(ids: Ids, ts: seq<string>, i: nat)
    requires i <= |ts| && Term(ids, ts, i).Ok?
    ensures Derives(ids, ts[i..Term(ids, ts, i).value.index])
    decreases |ts| - i, 0
  {
    var j := Term(ids, ts, i).value.index;
    var all := ts[i..j];
    if ts[i] == "(" {
      CompoundSound(ids, ts, i + 1);
      assert all[1..|all| - 1] == ts[i + 1..j - 1];
    } else if j == i + 1 {
      assert Simple(ids, all);
    } else {
      assert With(ids, all);
    }
  }

  lemma CompoundSound(ids: Ids, ts: seq<string>, i: nat)
    requires i <= |ts| && Compound(ids, ts, i).Ok?
    ensures Derives(ids, ts[i..Compound(ids, ts, i).value.index])
    decreases |ts| - i, 1
  {
    TermSound(ids, ts, i);
    var k := Term(ids, ts, i).value.index;
    if k < |ts| && Joins(ts[k]) {
      CompoundSound(ids, ts, k + 1);
      DerivesJoined(ids, ts, i, k, Compound(ids, ts, i).value.index);
    }
  }

  // ------------------------------------------------------------ completeness

  /** What may stand after a compound expression. */
  predicate Follows(ts: seq<string>, j: nat) {
    j <= |ts| && (j == |ts| || Joins(ts[j]) || ts[j] == ")")
  }

  /** What the parser makes of everything after an expression that ends at j. */
  function Onward(ids: Ids, ts: seq<string>, j: nat): Option<nat>
    requires Follows(ts, j)
  {
    if j < |ts| && Joins(ts[j]) then Reaches(Compound(ids, ts, j + 1)) else Some(j)
  }

  function Reaches(r: Result<Parsed, Problem>): Option<nat> {
    if r.Ok? then Some(r.value.index) else None
  }

  lemma TermThen(ids: Ids, ts: seq<string>, i: nat, j: nat)
    requires i <= |ts| && Follows(ts, j) && Reaches(Term(ids, ts, i)) == Some(j)
    ensures Reaches(Compound(ids, ts, i)) == Onward(ids, ts, j)
  {
    hide Term;
  }

  lemma SimpleTerm(ids: Ids, ts: seq<string>, i: nat, j: nat)
    requires i <= j && Follows(ts, j)
    requires Simple(ids, ts[i..j]) || With(ids, ts[i..j])
    ensures Reaches(Term(ids, ts, i)) == Some(j)
  {
    var all := ts[i..j];
    assert ts[i] == all[0];
    if |all| == 3 {
      assert ts[i + 1] == all[1] && ts[i + 2] == all[2];
    }
    hide Compound;
  }

  lemma ParenTerm(ids: Ids, ts: seq<string>, i: nat, j: nat)
    requires i + 2 <= j <= |ts| && ts[i] == "(" && ts[j - 1] == ")"
    requires Reaches(Compound(ids, ts, i + 1)) == Some(j - 1)
    ensures Reaches(Term(ids, ts, i)) == Some(j)
  {
    hide Compound;
  }

  lemma Within(ts: seq<string>, i: nat, j: nat)
    requires i + 2 <= j <= |ts|
    ensures ts[i..j][1..j - i - 1] == ts[i + 1..j - 1]
    ensures ts[i] == ts[i..j][0] && ts[j - 1] == ts[i..j][j - i - 1]
  {
    var all, inner := ts[i..j], ts[i + 1..j - 1];
    forall k | 0 <= k < |inner| ensures all[1..j - i - 1][k] == inner[k] {
    }
    assert |all[1..j - i - 1]| == |inner|;
  }

  /** The operator between the two halves of a stretch. */
  lemma JoinAt(ids: Ids, ts: seq<string>, i: nat, j: nat) returns (k: nat)
    requires i <= j <= |ts| && Derives(ids, ts[i..j])
    requires var all := ts[i..j];
             !Simple(ids, all) && !With(ids, all)
             && !(|all| >= 2 && all[0] == "(" && all[|all| - 1] == ")" && Derives(ids, all[1..|all| - 1]))
    ensures i < k < j && Joins(ts[k]) && Derives(ids, ts[i..k]) && Derives(ids, ts[k + 1..j])
  {
    hide Simple, With, Joins;
    var n :| 0 < n < |ts[i..j]| && Joins(ts[i..j][n]) && Derives(ids, ts[i..j][..n]) && Derives(ids, ts[i..j][n + 1..]);
    hide Derives;
    k := i + n;
    Slices(ts, i, j, n);
  }

  lemma Slices(ts: seq<string>, i: nat, j: nat, n: nat)
    requires i + n < j <= |ts|
    ensures ts[i..j][n] == ts[i + n] && ts[i..j][..n] == ts[i..i + n] && ts[i..j][n + 1..] == ts[i + n + 1..j]
  {
  }

  /** However a stretch of tokens derives, the parser passes exactly over it. */
  lemma {:induction false} Complete(ids: Ids, ts: seq<string>, i: nat, j: nat)
    requires i <= j && Follows(ts, j)
    requires Derives(ids, ts[i..j])
    ensures Reaches(Compound(ids, ts, i)) == Onward(ids, ts, j)
    decreases j - i
  {
    hide Compound, Term, Simple, With;
    var all := ts[i..j];
    if Simple(ids, all) || With(ids, all) {
      SimpleTerm(ids, ts, i, j);
      TermThen(ids, ts, i, j);
    } else if |all| >= 2 && all[0] == "(" && all[|all| - 1] == ")" && Derives(ids, all[1..|all| - 1]) {
      Within(ts, i, j);
      Complete(ids, ts, i + 1, j - 1);
      ParenTerm(ids, ts, i, j);
      TermThen(ids, ts, i, j);
    } else {
      var k := JoinAt(ids, ts, i, j);
      hide Derives;
      Complete(ids, ts, i, k);
      Complete(ids, ts, k + 1, j);
    }
  }

  /** The checker accepts exactly the expressions of the grammar. */
  lemma AcceptsExactly(ids: Ids, ts: seq<string>)
    ensures Check(ids, ts).None? <==> Derives(ids, ts)
  {
    assert ts[0..|ts|] == ts;
    if Check(ids, ts).None? {
      CompoundSound(ids, ts, 0);
    }
    if Derives(ids, ts) {
      Complete(ids, ts, 0, |ts|);
    }
  }

  // ---------------------------------------------------------------- printing

  datatype Tree =
    | License(id: string)
    | Excepted(id: string, exception: string)
    | Both(left: Tree, right: Tree)
    | Either(left: Tree, right: Tree)

  predicate Printable(ids: Ids, t: Tree) {
    match t
    case License(id) => LicenseToken(ids, id)
    case Excepted(id, e) => LicenseToken(ids, id) && ExceptionToken(ids, e)
    case Both(l, r) => Printable(ids, l) && Printable(ids, r)
    case Either(l, r) => Printable(ids, l) && Printable(ids, r)
  }

  function Print(t: Tree): seq<string> {
    match t
    case License(id) => [id]
    case Excepted(id, e) => [id, "WITH", e]
    case Both(l, r) => ["("] + Print(l) + ["AND"] + Print(r) + [")"]
    case Either(l, r) => ["("] + Print(l) + ["OR"] + Print(r) + [")"]
  }

  lemma {:induction false} PrintDerives(ids: Ids, t: Tree)
    requires Printable(ids, t)
    ensures Derives(ids, Print(t)) && Print(t) != []
  {
    match t
    case License(id) => assert Simple(ids, Print(t));
    case Excepted(id, e) => assert With(ids, Print(t));
    case Both(l, r) =>
      PrintDerives(ids, l);
      PrintDerives(ids, r);
      InParens(ids, Print(l), "AND", Print(r));
    case Either(l, r) =>
      PrintDerives(ids, l);
      PrintDerives(ids, r);
      InParens(ids, Print(l), "OR", Print(r));
  }

  lemma InParens(ids: Ids, a: seq<string>, op: string, b: seq<string>)
    requires Derives(ids, a) && Derives(ids, b) && a != [] && Joins(op)
    ensures Derives(ids, ["("] + a + [op] + b + [")"])
  {
    hide Derives;
    var inner := a + [op] + b;
    assert inner[0..|a|] == a && inner[|a| + 1..|inner|] == b && inner[0..|inner|] == inner;
    DerivesEmpty(ids, b);
    DerivesJoined(ids, inner, 0, |a|, |inner|);
    DerivesParens(ids, inner);
    assert ["("] + a + [op] + b + [")"] == ["("] + inner + [")"];
  }

  lemma DerivesEmpty(ids: Ids, ts: seq<string>)
    requires Derives(ids, ts)
    ensures ts != []
  {
  }

  lemma DerivesParens(ids: Ids, inner: seq<string>)
    requires Derives(ids, inner)
    ensures Derives(ids, ["("] + inner + [")"])
  {
    var all := ["("] + inner + [")"];
    assert all[1..|all| - 1] == inner;
  }

  /** Every expression tree over known identifiers is accepted as printed. */
  lemma PrintedIsAccepted(ids: Ids, t: Tree)
    requires Printable(ids, t)
    ensures Check(ids, Print(t)).None?
  {
    PrintDerives(ids, t);
    AcceptsExactly(ids, Print(t));
  }

  /** A license may carry a plus, and that only once: the identifier before it decides. */
  lemma PlusStands(ids: Ids, id: string)
    requires id != ""
    ensures var t := id + "+";
            LicenseToken(ids, t) <==> ids.license(id) && !ids.refused(t)
    ensures id[|id| - 1] != '+' ==>
              (LicenseToken(ids, id) <==>
                ids.license(id) && !ids.refused(id) && id !in ["(", ")", "AND", "OR", "WITH"])
  {
    var t := id + "+";
    assert t[|t| - 1] == '+' && t[..|t| - 1] == id;
  }

  // ------------------------------------------------------------- the problems

  /** A license is expected here. */
  predicate Starts(ts: seq<string>, i: nat)
    requires i <= |ts|
  {
    i == 0 || ts[i - 1] == "(" || Joins(ts[i - 1])
  }

  /** What a problem says of the token that it is about. */
  predicate AtToken(ids: Ids, ts: seq<string>, i: nat, p: Problem)
    requires i < |ts|
  {
    match p
    case Unopened => ts[i] == ")"
    case CloseForLicense => ts[i] == ")" && Starts(ts, i)
    case OperatorForLicense => Operator(ts[i]) && Starts(ts, i)
    case Refused => ids.refused(ts[i]) && Starts(ts, i)
    case UnknownLicense => !ids.license(Base(ts[i])) && Starts(ts, i)
    case NoException => ts[i] == "WITH" && (i + 1 == |ts| || Paren(ts[i + 1]) || Operator(ts[i + 1]))
    case UnknownException => i > 0 && ts[i - 1] == "WITH" && !ids.exception(ts[i])
    case WithAfterTerm => ts[i] == "WITH" && !Starts(ts, i)
    case Unexpected => ts[i] != ")" && ts[i] != "WITH" && !Starts(ts, i)
    case _ => false
  }

  predicate AtEnd(ts: seq<string>, p: Problem) {
    match p
    case Empty => ts == []
    case EndsEarly => ts != [] && Starts(ts, |ts|)
    case Unclosed => "(" in ts
    case _ => false
  }

  predicate Stands(ids: Ids, ts: seq<string>, i: nat, p: Problem)
    requires i <= |ts|
  {
    if i == |ts| then AtEnd(ts, p) else AtToken(ids, ts, i, p)
  }

  ghost predicate Tells(ids: Ids, ts: seq<string>, i: nat, r: Result<Parsed, Problem>)
    requires i <= |ts|
  {
    match r
    case Err(e) => exists j | i <= j <= |ts| :: Stands(ids, ts, j, e)
    case Ok(p) => i < p.index <= |ts| && !Starts(ts, p.index)
  }

  lemma {:induction false} TermTells(ids: Ids, ts: seq<string>, i: nat)
    requires i <= |ts| && Starts(ts, i)
    ensures Tells(ids, ts, i, Term(ids, ts, i))
    decreases |ts| - i, 0
  {
    assert Stands(ids, ts, i, Empty) <==> ts == [];
    if i < |ts| {
      if ts[i] == "(" {
        CompoundTells(ids, ts, i + 1);
        var r := Compound(ids, ts, i + 1);
        if r.Ok? {
          assert r.value.index == |ts| ==> Stands(ids, ts, |ts|, Unclosed);
          assert r.value.index < |ts| && ts[r.value.index] != ")" ==> Stands(ids, ts, r.value.index, Stray(ts, r.value.index));
        }
      } else if Term(ids, ts, i).Err? {
        var e := Term(ids, ts, i).error;
        var at := if e == NoException then i + 1 else if e == UnknownException then i + 2 else i;
        assert Stands(ids, ts, at, e);
      }
    } else {
      assert ts != [] ==> Stands(ids, ts, i, EndsEarly);
    }
  }

  lemma {:induction false} CompoundTells(ids: Ids, ts: seq<string>, i: nat)
    requires i <= |ts| && Starts(ts, i)
    ensures Tells(ids, ts, i, Compound(ids, ts, i))
    decreases |ts| - i, 1
  {
    hide Term, Stands;
    TermTells(ids, ts, i);
    var r := Term(ids, ts, i);
    if r.Ok? && r.value.index < |ts| && Joins(ts[r.value.index]) {
      CompoundTells(ids, ts, r.value.index + 1);
    }
  }

  /** A problem says what stands at some token, and before it only where a license was due. */
  lemma ProblemTells(ids: Ids, ts: seq<string>)
    requires Check(ids, ts).Some?
    ensures exists i | 0 <= i <= |ts| :: Stands(ids, ts, i, Check(ids, ts).value)
  {
    CompoundTells(ids, ts, 0);
    var r := Compound(ids, ts, 0);
    hide Compound;
    if r.Ok? {
      assert Stands(ids, ts, r.value.index, Stray(ts, r.value.index));
    }
  }

  // ------------------------------------------------------------- tokenization

  predicate Space(c: char) {
    c == ' ' || c == '\t' || c == '\r' || c == '\n'
  }

  predicate Letter(c: char) {
    !Space(c) && c != '(' && c != ')'
  }

  /** How many letters the text starts with. */
  function Span(s: string): (n: nat)
    ensures n <= |s| && (forall j | 0 <= j < n :: Letter(s[j])) && (n < |s| ==> !Letter(s[n]))
  {
    if s == "" || !Letter(s[0]) then 0 else 1 + Span(s[1..])
  }

  /** All matches of a parenthesis or a run of letters. */
  function Tokenize(s: string): seq<string>
    decreases |s|
  {
    if s == "" then []
    else if s[0] == '(' || s[0] == ')' then [[s[0]]] + Tokenize(s[1..])
    else if Space(s[0]) then Tokenize(s[1..])
    else [s[..Span(s)]] + Tokenize(s[Span(s)..])
  }

  predicate Word(t: string) {
    t != "" && forall j | 0 <= j < |t| :: Letter(t[j])
  }

  predicate Blank(gap: string) {
    forall c <- gap :: c in [' ', '\t', '\r', '\n']
  }

  /** Each token with what is between it and the next. */
  function Render(ts: seq<string>, gaps: seq<string>): string
    requires |gaps| == |ts|
  {
    if ts == [] then "" else ts[0] + (gaps[0] + Render(ts[1..], gaps[1..]))
  }

  /** Between two words there is some white space; around a parenthesis there may be none. */
  predicate Apart(ts: seq<string>, gaps: seq<string>) {
    && |gaps| == |ts|
    && forall j | 0 <= j < |ts| ::
         && (Paren(ts[j]) || Word(ts[j])) && Blank(gaps[j])
         && (gaps[j] != "" || Paren(ts[j]) || j + 1 == |ts| || Paren(ts[j + 1]))
  }

  lemma {:induction false} SpanOf(t: string, rest: string)
    requires forall j | 0 <= j < |t| :: Letter(t[j])
    requires rest == "" || !Letter(rest[0])
    ensures Span(t + rest) == |t|
  {
    if t == "" {
      assert t + rest == rest;
    } else {
      SpanOf(t[1..], rest);
      assert (t + rest)[1..] == t[1..] + rest;
    }
  }

  lemma {:induction false} BlankSkips(gap: string, rest: string)
    requires Blank(gap)
    ensures Tokenize(gap + rest) == Tokenize(rest)
  {
    if gap == "" {
      assert gap + rest == rest;
    } else {
      assert gap[0] in gap;
      forall c | c in gap[1..] ensures c in gap {
      }
      BlankSkips(gap[1..], rest);
      assert (gap + rest)[1..] == gap[1..] + rest;
    }
  }

  lemma WordEnds(ts: seq<string>, gaps: seq<string>)
    requires ts != [] && Apart(ts, gaps) && Word(ts[0])
    ensures var rest := gaps[0] + Render(ts[1..], gaps[1..]); rest == "" || !Letter(rest[0])
  {
    if gaps[0] != "" {
      assert gaps[0][0] in gaps[0];
    } else {
      assert Letter(ts[0][0]);
    }
  }

  /** Reading back what was written gives the same tokens, whatever white space stands around them. */
  lemma {:induction false} TokenizeRender(lead: string, ts: seq<string>, gaps: seq<string>)
    requires Blank(lead) && Apart(ts, gaps)
    ensures Tokenize(lead + Render(ts, gaps)) == ts
    decreases |ts|
  {
    BlankSkips(lead, Render(ts, gaps));
    if ts != [] {
      var t, rest := ts[0], gaps[0] + Render(ts[1..], gaps[1..]);
      var s := t + rest;
      assert Apart(ts[1..], gaps[1..]) by {
        var us, hs := ts[1..], gaps[1..];
        forall j | 0 <= j < |us|
          ensures (Paren(us[j]) || Word(us[j])) && Blank(hs[j])
          ensures hs[j] != "" || Paren(us[j]) || j + 1 == |us| || Paren(us[j + 1]) {
          assert us[j] == ts[j + 1] && hs[j] == gaps[j + 1];
        }
      }
      TokenizeRender(gaps[0], ts[1..], gaps[1..]);
      if Paren(t) {
        assert s[0] == t[0] && s[1..] == rest && [s[0]] == t;
      } else {
        WordEnds(ts, gaps);
        SpanOf(t, rest);
        assert s[..|t|] == t && s[|t|..] == rest;
      }
    }
  }

  /** The text without its white space. */
  function Solid(s: string): string {
    if s == "" then "" else (if Blank([s[0]]) then "" else [s[0]]) + Solid(s[1..])
  }

  function Flat(ts: seq<string>): string {
    if ts == [] then "" else ts[0] + Flat(ts[1..])
  }

  lemma {:induction false} SolidWord(t: string, rest: string)
    requires forall j | 0 <= j < |t| :: Letter(t[j])
    ensures Solid(t + rest) == t + Solid(rest)
  {
    if t == "" {
      assert t + rest == rest;
    } else {
      SolidWord(t[1..], rest);
      assert (t + rest)[1..] == t[1..] + rest;
      assert !Blank([t[0]]) by {
        assert t[0] in [t[0]];
      }
      assert [t[0]] + (t[1..] + Solid(rest)) == t + Solid(rest);
    }
  }

  /** Of any text, the tokens hold everything but the white space, in order, as parentheses and words. */
  lemma {:induction false} TokensKeep(s: string)
    ensures Flat(Tokenize(s)) == Solid(s)
    ensures forall t <- Tokenize(s) :: Paren(t) || Word(t)
    decreases |s|
  {
    if s != "" {
      if s[0] == '(' || s[0] == ')' {
        TokensKeep(s[1..]);
        assert s[0] in [s[0]];
      } else if Space(s[0]) {
        TokensKeep(s[1..]);
      } else {
        var n := Span(s);
        TokensKeep(s[n..]);
        assert s == s[..n] + s[n..];
        SolidWord(s[..n], s[n..]);
      }
    }
  }

  /** Tokenization is a loop over the matches. */
  method Tokens(s: string) returns (ts: seq<string>)
    ensures ts == Tokenize(s)
  {
    ts := [];
    var at := 0;
    assert s[0..] == s;
    while at < |s|
      invariant at <= |s|
      invariant ts + Tokenize(s[at..]) == Tokenize(s)
    {
      ghost var left := s[at..];
      assert left[1..] == s[at + 1..];
      if s[at] == '(' || s[at] == ')' {
        ts := ts + [[s[at]]];
        at := at + 1;
      } else if Space(s[at]) {
        at := at + 1;
      } else {
        var n := Span(s[at..]);
        assert left[..n] == s[at..at + n] && left[n..] == s[at + n..];
        ts := ts + [s[at..at + n]];
        at := at + n;
      }
    }
  }
}
