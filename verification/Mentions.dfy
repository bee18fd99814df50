/** Which names a clause mentions, told from the nodes it reaches in the arena. */
module Mentions {
  import opened Common
  import opened Ast
  import opened FoldArena
  import opened Visiting
  import opened Matching

  predicate There(st: Store, h: Handle) {
    h.At? && h.index < |st.nodes|
  }

  /** An expression, or the WHERE node around one. */
  predicate IsOperand(st: Store, h: Handle) {
    There(st, h) && (IsExpression(st.nodes[h.index]) || st.nodes[h.index].WhereClause?)
  }

  /** The handle leads to a pattern or an assignment, not to an operand. */
  predicate LeadsTo(n: AstNode, c: Handle) {
    match n
    case PathChain(_, _, _, _) => true
    case EdgePattern(_, _, _, _, _, _, t) => c == t
    case MatchClause(_, ps, _) => c in ps
    case CreateClause(_) => true
    case MergeClause(_, _, _) => true
    case SetClause(_) => true
    case _ => false
  }

  /** One step down: to a pattern, an assignment or a readable operand, but not along the path of a comprehension. */
  ghost predicate Enters(st: Store, n: AstNode, c: Handle) {
    && c in Handles(n) && There(st, c) && (LeadsTo(n, c) || IsOperand(st, c))
    && (n.PatternComprehension? ==> c in OptSet(n.pfilter) + {n.projection})
  }

  ghost predicate Reached(st: Store, h: Handle, g: Handle)
    requires Wf(st)
    decreases Rk(st, h)
  {
    There(st, h) &&
    (g == h || exists c :: Enters(st, st.nodes[h.index], c) && Rk(st, c) < Rk(st, h) && Reached(st, c, g))
  }

  /** The name a node stands for: an identifier, and with `binding` the alias of a pattern. */
  function Word(n: AstNode, binding: bool): Option<string> {
    match n
    case Identifier(x) => Some(x)
    case NodePattern(v, _, _) => if binding then v else None
    case EdgePattern(v, _, _, _, _, _, _) => if binding then v else None
    case PathChain(v, _, _, _) => if binding then v else None
    case _ => None
  }

  /** The names of the nodes reached. */
  ghost function NamesBelow(st: Store, h: Handle, binding: bool): set<string>
    requires Wf(st)
  {
    set i | 0 <= i < |st.nodes| && Word(st.nodes[i], binding).Some? && Reached(st, h, At(i)) ::
      Word(st.nodes[i], binding).value
  }

  ghost predicate Named(st: Store, h: Handle, g: Handle, binding: bool, x: string)
    requires Wf(st)
  {
    Reached(st, h, g) && There(st, g) && Word(st.nodes[g.index], binding) == Some(x)
  }

  lemma NamesIff(st: Store, h: Handle, binding: bool, x: string)
    requires Wf(st)
    ensures x in NamesBelow(st, h, binding) <==> exists g :: Named(st, h, g, binding, x)
  {
    if x in NamesBelow(st, h, binding) {
      var i :| 0 <= i < |st.nodes| && Word(st.nodes[i], binding).Some? && Reached(st, h, At(i))
        && Word(st.nodes[i], binding).value == x;
      assert Named(st, h, At(i), binding, x);
    }
    if exists g :: Named(st, h, g, binding, x) {
      var g :| Named(st, h, g, binding, x);
      assert g == At(g.index);
    }
  }

  lemma EnteredBelow(st: Store, h: Handle, c: Handle)
    requires Wf(st) && There(st, h) && Enters(st, st.nodes[h.index], c)
    ensures Rk(st, c) < Rk(st, h)
  {
    assert NodeLow(st, st.nodes[h.index], st.rank[h.index]);
  }

  /** The node itself, and what it enters. */
  lemma NamesStep(st: Store, h: Handle, binding: bool, x: string)
    requires Wf(st) && There(st, h)
    ensures x in NamesBelow(st, h, binding) <==>
      || Word(st.nodes[h.index], binding) == Some(x)
      || exists c :: Enters(st, st.nodes[h.index], c) && x in NamesBelow(st, c, binding)
  {
    hide NamesBelow, Wf, Enters, Word;
    NamesIff(st, h, binding, x);
    var n := st.nodes[h.index];
    if x in NamesBelow(st, h, binding) {
      var g :| Named(st, h, g, binding, x);
      if g != h {
        var c :| Enters(st, n, c) && Rk(st, c) < Rk(st, h) && Reached(st, c, g);
        assert Named(st, c, g, binding, x);
        NamesIff(st, c, binding, x);
      }
    }
    if Word(n, binding) == Some(x) { assert Named(st, h, h, binding, x); }
    if exists c :: Enters(st, n, c) && x in NamesBelow(st, c, binding) {
      var c :| Enters(st, n, c) && x in NamesBelow(st, c, binding);
      NamesIff(st, c, binding, x);
      var g :| Named(st, c, g, binding, x);
      EnteredBelow(st, h, c);
      assert Named(st, h, g, binding, x);
    }
  }

  // ---------- Operands and parts ----------

  /** The handles that are read as operands. */
  function OperandsOf(n: AstNode): seq<Handle> {
    match n
    case NodePattern(_, _, ps) => ps
    case EdgePattern(_, _, _, _, _, ps, _) => ps
    case ExistsSubquery(q) => [q]
    case CountSubquery(q) => [q]
    case WhereClause(p) => [p]
    case SetItem(t, v, _) => [t, v]
    case LoadCsvClause(u, _, _) => [u]
    case UnwindClause(e, _) => [e]
    case LetClause(_, e) => [e]
    case FilterClause(p) => [p]
    case WithClause(_, ps, os, _, _, w) => ItemHandles(ps) + KeyHandles(os) + OptSeq(w)
    case ReturnClause(_, ps, os, _, _) => ItemHandles(ps) + KeyHandles(os)
    case MatchClause(_, _, w) => OptSeq(w)
    case DeleteClause(_, ts) => ts
    case RemoveClause(rs) => rs
    case ProcedureCall(_, _, _, args, _) => args
    case QueryStatement(_, c, us, ms, ls, ws, xs, r) => OptSeq(c) + us + ms + ls + ws + xs + OptSeq(r)
    case _ => Operands(n)
  }

  /** The handles that lead to patterns and assignments. */
  function Parts(n: AstNode): seq<Handle> {
    match n
    case EdgePattern(_, _, _, _, _, _, t) => [t]
    case PathChain(_, _, s, es) => [s] + es
    case MatchClause(_, ps, _) => ps
    case CreateClause(ps) => ps
    case MergeClause(p, c, m) => [p] + (c + m)
    case SetClause(ss) => ss
    case _ => []
  }

  lemma EntersIff(st: Store, n: AstNode, c: Handle)
    ensures Enters(st, n, c) <==> (c in OperandsOf(n) && IsOperand(st, c)) || (c in Parts(n) && There(st, c))
  {
    hide IsOperand, There;
    OperandThere(st, c);
    if IsExpression(n) {
      OperandsIff(n, c);
      hide Handles, OperandsOf;
      assert !LeadsTo(n, c) && Parts(n) == [];
    } else {
      ClauseHandles(n, c);
      hide Handles, OperandsOf, Parts, LeadsTo, IsExpression;
    }
  }

  lemma OperandThere(st: Store, c: Handle)
    ensures IsOperand(st, c) ==> There(st, c)
  {
  }

  /** An expression reads its operands; a comprehension reads all but its path. */
  lemma OperandsIff(n: AstNode, c: Handle)
    requires IsExpression(n)
    ensures c in OperandsOf(n) <==>
      c in Handles(n) && (n.PatternComprehension? ==> c in OptSet(n.pfilter) + {n.projection})
  {
    match n
    case CaseExpression(_, bs, _) => FlatIff(bs, c);
    case _ =>
  }

  /** Elsewhere a handle is read as an operand or leads to a part. */
  lemma ClauseHandles(n: AstNode, c: Handle)
    requires !IsExpression(n)
    ensures c in Parts(n) <==> c in Handles(n) && LeadsTo(n, c)
    ensures c in OperandsOf(n) ==> c in Handles(n)
    ensures c in Handles(n) && !LeadsTo(n, c) ==> c in OperandsOf(n)
  {
    match n
    case WithClause(_, ps, os, _, _, _) => ListedIff(ps, os, c);
    case ReturnClause(_, ps, os, _, _) => ListedIff(ps, os, c);
    case _ =>
  }

  lemma {:induction false} FlatIff(bs: seq<(Handle, Handle)>, c: Handle)
    ensures c in Flat(bs) <==> c in FirstSet(bs) + set b | b in bs :: b.1
    decreases |bs|
  {
    if bs != [] {
      FlatIff(bs[1..], c);
      assert bs == [bs[0]] + bs[1..];
      assert c in Flat(bs) <==> c == bs[0].0 || c == bs[0].1 || c in Flat(bs[1..]);
      if c in Flat(bs) {
        if c == bs[0].0 || c == bs[0].1 { assert bs[0] in bs; }
      }
      if b :| b in bs && (c == b.0 || c == b.1) {
        if b != bs[0] { assert b in bs[1..]; }
      }
    }
  }

  lemma ListedIff(ps: seq<ProjectionItem>, os: seq<(Handle, bool)>, c: Handle)
    ensures c in ItemHandles(ps) <==> c in ItemSet(ps)
    ensures c in KeyHandles(os) <==> c in FirstSet(os)
  {
    if c in ItemHandles(ps) {
      var k :| 0 <= k < |ps| && ItemHandles(ps)[k] == c;
      assert ps[k] in ps;
    }
    if c in ItemSet(ps) {
      var p :| p in ps && p.expression == c;
      var k :| 0 <= k < |ps| && ps[k] == p;
      assert ItemHandles(ps)[k] == c;
    }
    if c in KeyHandles(os) {
      var k :| 0 <= k < |os| && KeyHandles(os)[k] == c;
      assert os[k] in os;
    }
    if c in FirstSet(os) {
      var p :| p in os && p.0 == c;
      var k :| 0 <= k < |os| && os[k] == p;
      assert KeyHandles(os)[k] == c;
    }
  }

  /** The names read through an operand: what is none is not entered. */
  ghost function OperandNames(st: Store, h: Handle): set<string>
    requires Wf(st)
  {
    if IsOperand(st, h) then NamesBelow(st, h, false) else {}
  }

  ghost function ReadNames(st: Store, hs: seq<Handle>): set<string>
    requires Wf(st)
  {
    if hs == [] then {} else OperandNames(st, hs[0]) + ReadNames(st, hs[1..])
  }

  /** The names of a part: a missing one has none. */
  ghost function PartName(st: Store, h: Handle, binding: bool): set<string>
    requires Wf(st)
  {
    if There(st, h) then NamesBelow(st, h, binding) else {}
  }

  ghost function PartNames(st: Store, hs: seq<Handle>, binding: bool): set<string>
    requires Wf(st)
  {
    if hs == [] then {} else PartName(st, hs[0], binding) + PartNames(st, hs[1..], binding)
  }

  lemma {:induction false} ReadNamesIff(st: Store, hs: seq<Handle>, x: string)
    requires Wf(st)
    ensures x in ReadNames(st, hs) <==> exists c :: c in hs && IsOperand(st, c) && x in NamesBelow(st, c, false)
    decreases |hs|
  {
    hide NamesBelow, Wf, IsOperand;
    if hs != [] {
      ReadNamesIff(st, hs[1..], x);
      assert hs == [hs[0]] + hs[1..];
    }
  }

  lemma {:induction false} PartNamesIff(st: Store, hs: seq<Handle>, binding: bool, x: string)
    requires Wf(st)
    ensures x in PartNames(st, hs, binding) <==> exists c :: c in hs && There(st, c) && x in NamesBelow(st, c, binding)
    decreases |hs|
  {
    hide NamesBelow, Wf, There;
    if hs != [] {
      PartNamesIff(st, hs[1..], binding, x);
      assert hs == [hs[0]] + hs[1..];
    }
  }

  lemma {:induction false} ReadNamesConcat(st: Store, a: seq<Handle>, b: seq<Handle>)
    requires Wf(st)
    ensures ReadNames(st, a + b) == ReadNames(st, a) + ReadNames(st, b)
    decreases |a|
  {
    hide NamesBelow, Wf, IsOperand;
    if a == [] {
      assert a + b == b;
    } else {
      assert (a + b)[1..] == a[1..] + b;
      ReadNamesConcat(st, a[1..], b);
    }
  }

  lemma {:induction false} PartNamesConcat(st: Store, a: seq<Handle>, b: seq<Handle>, binding: bool)
    requires Wf(st)
    ensures PartNames(st, a + b, binding) == PartNames(st, a, binding) + PartNames(st, b, binding)
    decreases |a|
  {
    hide NamesBelow, Wf, There;
    if a == [] {
      assert a + b == b;
    } else {
      assert (a + b)[1..] == a[1..] + b;
      PartNamesConcat(st, a[1..], b, binding);
    }
  }

  /** No pattern is reached through an operand. */
  lemma {:induction false} OperandName(st: Store, h: Handle, binding: bool, x: string)
    requires Wf(st) && IsOperand(st, h)
    ensures x in NamesBelow(st, h, binding) <==> x in NamesBelow(st, h, false)
    decreases Rk(st, h), 0
  {
    hide NamesBelow, Wf, Enters;
    var n := st.nodes[h.index];
    NamesStep(st, h, binding, x);
    NamesStep(st, h, false, x);
    assert Parts(n) == [] && Word(n, binding) == Word(n, false);
    forall c | Enters(st, n, c) ensures x in NamesBelow(st, c, binding) <==> x in NamesBelow(st, c, false) {
      EntersIff(st, n, c);
      EnteredBelow(st, h, c);
      OperandName(st, c, binding, x);
    }
  }

  /** What a node mentions: its own name, what it reads, and its parts. */
  lemma NamesParts(st: Store, h: Handle, binding: bool)
    requires Wf(st) && There(st, h)
    ensures var n := st.nodes[h.index];
      NamesBelow(st, h, binding) ==
        OptVar(Word(n, binding)) + ReadNames(st, OperandsOf(n)) + PartNames(st, Parts(n), binding)
  {
    hide NamesBelow, Wf, Enters, ReadNames, PartNames, OperandsOf, Parts, Word;
    var n := st.nodes[h.index];
    forall x
      ensures x in NamesBelow(st, h, binding) <==>
        x in OptVar(Word(n, binding)) + ReadNames(st, OperandsOf(n)) + PartNames(st, Parts(n), binding)
    {
      NamesStep(st, h, binding, x);
      ReadNamesIff(st, OperandsOf(n), x);
      PartNamesIff(st, Parts(n), binding, x);
      forall c
        ensures Enters(st, n, c) <==> (c in OperandsOf(n) && IsOperand(st, c)) || (c in Parts(n) && There(st, c))
      {
        EntersIff(st, n, c);
      }
      forall c | IsOperand(st, c) ensures x in NamesBelow(st, c, binding) <==> x in NamesBelow(st, c, false) {
        OperandName(st, c, binding, x);
      }
    }
  }

  // ---------- Clauses ----------

  /** CREATE and MERGE use the names they bind. */
  predicate Binds(n: AstNode) {
    n.CreateClause? || n.MergeClause?
  }

  /** The name a clause introduces. */
  function Introduced(n: AstNode): Option<string> {
    match n
    case LoadCsvClause(_, _, x) => Some(x)
    case UnwindClause(_, x) => Some(x)
    case LetClause(x, _) => Some(x)
    case _ => None
  }

  /** Clause `c` mentions the name: it introduces it, or reaches an identifier or bound pattern of that name. */
  ghost predicate Mentioning(st: Store, c: Handle, x: string)
    requires Wf(st)
  {
    There(st, c) &&
    (Introduced(st.nodes[c.index]) == Some(x) || exists g :: Named(st, c, g, Binds(st.nodes[c.index]), x))
  }

  ghost function ClauseNames(st: Store, c: Handle): set<string>
    requires Wf(st)
  {
    if There(st, c) then
      OptVar(Introduced(st.nodes[c.index])) + NamesBelow(st, c, Binds(st.nodes[c.index]))
    else {}
  }

  ghost function ClausesNames(st: Store, hs: seq<Handle>): set<string>
    requires Wf(st)
  {
    if hs == [] then {} else ClauseNames(st, hs[0]) + ClausesNames(st, hs[1..])
  }

  lemma {:induction false} ClausesNamesIff(st: Store, hs: seq<Handle>, x: string)
    requires Wf(st)
    ensures x in ClausesNames(st, hs) <==> exists c :: c in hs && Mentioning(st, c, x)
    decreases |hs|
  {
    hide NamesBelow, Wf;
    if hs != [] {
      ClausesNamesIff(st, hs[1..], x);
      assert hs == [hs[0]] + hs[1..];
      assert x in ClauseNames(st, hs[0]) <==> Mentioning(st, hs[0], x) by {
        if There(st, hs[0]) { NamesIff(st, hs[0], Binds(st.nodes[hs[0].index]), x); }
      }
    }
  }
}
