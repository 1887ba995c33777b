/**
 * The chart-of-accounts page (`PlanoDeContasPage`): a forest of accounts
 * (`Conta`), rows rendered in pre-order with expandable nodes, classification
 * codes generated from the parent, new accounts appended under every node
 * carrying the chosen parent id, and the "parent account" options that hide
 * accounts of degree 5 together with their whole subtree.
 *
 * The optional `subContas` of the source is a sequence here: every code path
 * of the page treats a missing list exactly as an empty one.
 */
module AccountPlan {
  import opened Common

  const MaxGrau := 5

  datatype Conta = Conta(
    id: string,
    classificacao: string,
    descricao: string,
    grau: int,
    total: real,
    subContas: seq<Conta>)

  /** Every account of the forest, parent before children, siblings in order. */
  function PreOrder(lista: seq<Conta>): (r: seq<Conta>)
    ensures |r| >= |lista|
    ensures forall c :: c in lista ==> c in r
    decreases lista
  {
    if lista == [] then []
    else [lista[0]] + PreOrder(lista[0].subContas) + PreOrder(lista[1..])
  }

  function ContaId(c: Conta): string
  {
    c.id
  }

  /** First account of `s` with the given id. */
  function FirstWithId(id: string, s: seq<Conta>): (r: Option<Conta>)
    ensures r.Some? ==> r.value in s && r.value.id == id
    ensures r.None? <==> forall c :: c in s ==> c.id != id
  {
    if s == [] then None
    else if s[0].id == id then Some(s[0])
    else FirstWithId(id, s[1..])
  }

  lemma {:induction false} FirstWithIdAppend(id: string, a: seq<Conta>, b: seq<Conta>)
    ensures FirstWithId(id, a + b) == if FirstWithId(id, a).Some? then FirstWithId(id, a) else FirstWithId(id, b)
  {
    if a != [] {
      assert (a + b)[1..] == a[1..] + b;
      FirstWithIdAppend(id, a[1..], b);
    } else {
      assert a + b == b;
    }
  }

  /** `findConta`: depth-first search, a node before its children. */
  function FindConta(id: string, lista: seq<Conta>): Option<Conta>
    decreases lista
  {
    if lista == [] then None
    else if lista[0].id == id then Some(lista[0])
    else
      match FindConta(id, lista[0].subContas)
      case Some(c) => Some(c)
      case None => FindConta(id, lista[1..])
  }

  /** `findConta` returns the first account with that id in pre-order, and finds one whenever one exists. */
  lemma {:induction false} FindContaIsFirstInPreOrder(id: string, lista: seq<Conta>)
    ensures FindConta(id, lista) == FirstWithId(id, PreOrder(lista))
    decreases lista
  {
    if lista != [] {
      var c := lista[0];
      FindContaIsFirstInPreOrder(id, c.subContas);
      FindContaIsFirstInPreOrder(id, lista[1..]);
      FirstWithIdAppend(id, [c] + PreOrder(c.subContas), PreOrder(lista[1..]));
      FirstWithIdAppend(id, [c], PreOrder(c.subContas));
    }
  }

  /** One step of a pre-order walk: the account, its nesting level and its ancestors, outermost first. */
  datatype Visit = Visit(conta: Conta, nivel: nat, ancestors: seq<Conta>)

  function VisitConta(v: Visit): Conta
  {
    v.conta
  }

  /**
   * The pre-order walk of the whole forest, visiting every account (hidden
   * or not) with the level it sits at and the chain of accounts above it.
   */
  function Walk(lista: seq<Conta>, nivel: nat, ancestors: seq<Conta>): (r: seq<Visit>)
    ensures forall v :: v in r ==> v.nivel == nivel + |v.ancestors| - |ancestors| && ancestors <= v.ancestors
    decreases lista
  {
    if lista == [] then []
    else
      [Visit(lista[0], nivel, ancestors)]
      + Walk(lista[0].subContas, nivel + 1, ancestors + [lista[0]])
      + Walk(lista[1..], nivel, ancestors)
  }

  /** The walk meets every account exactly in pre-order. */
  lemma {:induction false} WalkFollowsPreOrder(lista: seq<Conta>, nivel: nat, ancestors: seq<Conta>)
    ensures Map(VisitConta, Walk(lista, nivel, ancestors)) == PreOrder(lista)
    decreases lista
  {
    if lista != [] {
      var c := lista[0];
      var head := [Visit(c, nivel, ancestors)];
      var sub := Walk(c.subContas, nivel + 1, ancestors + [c]);
      var rest := Walk(lista[1..], nivel, ancestors);
      WalkFollowsPreOrder(c.subContas, nivel + 1, ancestors + [c]);
      WalkFollowsPreOrder(lista[1..], nivel, ancestors);
      MapAppend(VisitConta, head + sub, rest);
      MapAppend(VisitConta, head, sub);
    }
  }

  // ---------------------------------------------------------------------
  // Expanded rows

  /** The set after `toggleRow`: the id leaves the set if present, joins it otherwise. */
  function Toggled(expanded: set<string>, contaId: string): (r: set<string>)
    ensures contaId in r <==> contaId !in expanded
    ensures forall x :: x != contaId ==> (x in r <==> x in expanded)
  {
    if contaId in expanded then expanded - {contaId} else expanded + {contaId}
  }

  /** Clicking the same toggle twice restores the expanded set. */
  lemma ToggleTwice(expanded: set<string>, contaId: string)
    ensures Toggled(Toggled(expanded, contaId), contaId) == expanded
  {
  }

  // ---------------------------------------------------------------------
  // Rendering

  datatype Toggle = NoToggle | ChevronRight | ChevronDown

  /** One table row: what `renderRows` shows of an account. */
  datatype Row = Row(
    id: string,
    descricao: string,
    classificacao: string,
    total: real,
    paddingLeft: int,
    toggle: Toggle)

  function MakeRow(c: Conta, level: nat, expanded: set<string>): Row
  {
    Row(c.id, c.descricao, c.classificacao, c.total, level * 24 + 16,
        if |c.subContas| > 0 then (if c.id in expanded then ChevronDown else ChevronRight) else NoToggle)
  }

  /** The rows `renderRows(contasList, level)` produces for a given expanded set. */
  function Rows(lista: seq<Conta>, level: nat, expanded: set<string>): seq<Row>
    decreases lista
  {
    if lista == [] then []
    else
      [MakeRow(lista[0], level, expanded)]
      + (if lista[0].id in expanded then Rows(lista[0].subContas, level + 1, expanded) else [])
      + Rows(lista[1..], level, expanded)
  }

  function RowId(row: Row): string
  {
    row.id
  }

  lemma {:induction false} RowsAppend(a: seq<Conta>, b: seq<Conta>, level: nat, expanded: set<string>)
    ensures Rows(a + b, level, expanded) == Rows(a, level, expanded) + Rows(b, level, expanded)
  {
    if a == [] {
      assert a + b == b;
    } else {
      assert (a + b)[0] == a[0];
      assert (a + b)[1..] == a[1..] + b;
      RowsAppend(a[1..], b, level, expanded);
    }
  }

  /** With every account expanded, the rows list the whole forest in pre-order. */
  lemma {:induction false} RowsAllExpanded(lista: seq<Conta>, level: nat, expanded: set<string>)
    requires forall c :: c in PreOrder(lista) ==> c.id in expanded
    ensures Map(RowId, Rows(lista, level, expanded)) == Map(ContaId, PreOrder(lista))
    decreases lista
  {
    if lista != [] {
      var c := lista[0];
      RowsAllExpanded(c.subContas, level + 1, expanded);
      RowsAllExpanded(lista[1..], level, expanded);
      var sub := Rows(c.subContas, level + 1, expanded);
      var rest := Rows(lista[1..], level, expanded);
      MapAppend(RowId, [MakeRow(c, level, expanded)] + sub, rest);
      MapAppend(RowId, [MakeRow(c, level, expanded)], sub);
      MapAppend(ContaId, [c] + PreOrder(c.subContas), PreOrder(lista[1..]));
      MapAppend(ContaId, [c], PreOrder(c.subContas));
    }
  }

  /** With nothing expanded, only the top-level accounts are shown, in order. */
  lemma {:induction false} RowsCollapsed(lista: seq<Conta>, level: nat)
    ensures Map(RowId, Rows(lista, level, {})) == Map(ContaId, lista)
  {
    if lista != [] {
      RowsCollapsed(lista[1..], level);
      MapAppend(RowId, [MakeRow(lista[0], level, {})], Rows(lista[1..], level, {}));
    }
  }

  /** A visit is rendered when every account above it is expanded. */
  function VisibleIn(expanded: set<string>): Visit -> bool
  {
    (v: Visit) => forall a :: a in v.ancestors ==> a.id in expanded
  }

  /** The row a visit is rendered as. */
  function RowAt(expanded: set<string>): Visit -> Row
  {
    (v: Visit) => MakeRow(v.conta, v.nivel, expanded)
  }

  /** Under a collapsed ancestor nothing is rendered. */
  lemma {:induction false} CollapsedHidesAll(lista: seq<Conta>, nivel: nat, ancestors: seq<Conta>, expanded: set<string>)
    requires exists a :: a in ancestors && a.id !in expanded
    ensures Filter(Walk(lista, nivel, ancestors), VisibleIn(expanded)) == []
    decreases lista
  {
    if lista != [] {
      var c := lista[0];
      var head := [Visit(c, nivel, ancestors)];
      var sub := Walk(c.subContas, nivel + 1, ancestors + [c]);
      var rest := Walk(lista[1..], nivel, ancestors);
      var a :| a in ancestors && a.id !in expanded;
      assert a in ancestors + [c];
      CollapsedHidesAll(c.subContas, nivel + 1, ancestors + [c], expanded);
      CollapsedHidesAll(lista[1..], nivel, ancestors, expanded);
      FilterAppend(head + sub, rest, VisibleIn(expanded));
      FilterAppend(head, sub, VisibleIn(expanded));
      assert !VisibleIn(expanded)(head[0]);
    }
  }

  /** `renderRows` shows, in pre-order, exactly the accounts whose ancestors are all expanded. */
  lemma {:induction false} RowsAreVisibleWalk(lista: seq<Conta>, level: nat, ancestors: seq<Conta>, expanded: set<string>)
    requires forall a :: a in ancestors ==> a.id in expanded
    ensures Rows(lista, level, expanded) == Map(RowAt(expanded), Filter(Walk(lista, level, ancestors), VisibleIn(expanded)))
    decreases lista
  {
    if lista != [] {
      var c := lista[0];
      var p, f := VisibleIn(expanded), RowAt(expanded);
      var head := [Visit(c, level, ancestors)];
      var sub := Walk(c.subContas, level + 1, ancestors + [c]);
      var rest := Walk(lista[1..], level, ancestors);
      assert p(head[0]);
      assert Filter(head, p) == head;
      FilterAppend(head + sub, rest, p);
      FilterAppend(head, sub, p);
      RowsAreVisibleWalk(lista[1..], level, ancestors, expanded);
      if c.id in expanded {
        RowsAreVisibleWalk(c.subContas, level + 1, ancestors + [c], expanded);
      } else {
        assert c in ancestors + [c];
        CollapsedHidesAll(c.subContas, level + 1, ancestors + [c], expanded);
      }
      MapAppend(f, head + Filter(sub, p), Filter(rest, p));
      MapAppend(f, head, Filter(sub, p));
    }
  }

  /**
   * Row i is the i-th rendered visit: its account, indented 16px plus 24px
   * for each level, the level being the starting level plus the number of
   * accounts above it, with a toggle exactly when the account has
   * sub-accounts, pointing down when it is expanded.
   */
  lemma RowsIndentation(lista: seq<Conta>, level: nat, expanded: set<string>)
    ensures var shown := Filter(Walk(lista, level, []), VisibleIn(expanded));
      var rows := Rows(lista, level, expanded);
      |rows| == |shown| &&
      forall i :: 0 <= i < |rows| ==>
        rows[i].id == shown[i].conta.id &&
        shown[i].nivel == level + |shown[i].ancestors| &&
        rows[i].paddingLeft == 16 + 24 * shown[i].nivel &&
        (rows[i].toggle != NoToggle <==> |shown[i].conta.subContas| > 0) &&
        (rows[i].toggle == ChevronDown <==> |shown[i].conta.subContas| > 0 && shown[i].conta.id in expanded)
  {
    RowsAreVisibleWalk(lista, level, [], expanded);
    var shown := Filter(Walk(lista, level, []), VisibleIn(expanded));
    forall i | 0 <= i < |shown| ensures shown[i].nivel == level + |shown[i].ancestors| {
      assert shown[i] in Walk(lista, level, []);
    }
  }

  /** Rendering never shows more rows than there are accounts. */
  lemma {:induction false} RowsAtMostPreOrder(lista: seq<Conta>, level: nat, expanded: set<string>)
    ensures |Rows(lista, level, expanded)| <= |PreOrder(lista)|
    decreases lista
  {
    if lista != [] {
      RowsAtMostPreOrder(lista[0].subContas, level + 1, expanded);
      RowsAtMostPreOrder(lista[1..], level, expanded);
    }
  }

  // ---------------------------------------------------------------------
  // Classification codes and degree

  /** `gerarClassificacao`. */
  function GerarClassificacao(parentId: string, contas: seq<Conta>): string
  {
    if parentId == "" then NatToString(|contas| + 1)
    else
      match FindConta(parentId, contas)
      case None => "0"
      case Some(parent) => parent.classificacao + "." + NatToString(|parent.subContas| + 1)
  }

  /** A child's code extends its parent's code with "." and the child's 1-based position; an unknown parent gives "0". */
  lemma ClassificacaoShape(parentId: string, contas: seq<Conta>)
    requires parentId != ""
    ensures FindConta(parentId, contas).None? ==> GerarClassificacao(parentId, contas) == "0"
    ensures FindConta(parentId, contas).Some? ==>
      var p := FindConta(parentId, contas).value;
      var code := GerarClassificacao(parentId, contas);
      IsPrefix(p.classificacao + ".", code) && AllDigits(code[|p.classificacao| + 1..]) && |code| > |p.classificacao| + 1
  {
    if FindConta(parentId, contas).Some? {
      var p := FindConta(parentId, contas).value;
      var n := NatToString(|p.subContas| + 1);
      assert GerarClassificacao(parentId, contas)[|p.classificacao| + 1..] == n;
    }
  }

  /** Consecutive root accounts get consecutive codes. */
  lemma RootCodesIncrement(contas: seq<Conta>, nova: Conta)
    ensures GerarClassificacao("", contas) == NatToString(|contas| + 1)
    ensures GerarClassificacao("", contas + [nova]) == NatToString(|contas| + 2)
  {
  }

  /** `addSubConta`: append `nova` to the children of every account whose id is `parentId`; a matching account is not searched further. */
  function AddSubConta(lista: seq<Conta>, parentId: string, nova: Conta): (r: seq<Conta>)
    ensures |r| == |lista|
    ensures forall i :: 0 <= i < |lista| ==>
      r[i].(subContas := []) == lista[i].(subContas := [])
    decreases lista
  {
    if lista == [] then []
    else
      var c := lista[0];
      var c' := if c.id == parentId then c.(subContas := c.subContas + [nova])
                else c.(subContas := AddSubConta(c.subContas, parentId, nova));
      [c'] + AddSubConta(lista[1..], parentId, nova)
  }

  /** After adding, the search for the parent finds it with the new account as its last child. */
  lemma {:induction false} FindAfterAdd(lista: seq<Conta>, parentId: string, nova: Conta)
    ensures FindConta(parentId, AddSubConta(lista, parentId, nova)) ==
      match FindConta(parentId, lista)
      case None => None
      case Some(p) => Some(p.(subContas := p.subContas + [nova]))
    decreases lista
  {
    if lista != [] {
      var c := lista[0];
      var r := AddSubConta(lista, parentId, nova);
      assert r[1..] == AddSubConta(lista[1..], parentId, nova);
      if c.id != parentId {
        FindAfterAdd(c.subContas, parentId, nova);
        FindAfterAdd(lista[1..], parentId, nova);
      }
    }
  }

  /** A parent id that names no account leaves the forest unchanged. */
  lemma {:induction false} AddUnknownParent(lista: seq<Conta>, parentId: string, nova: Conta)
    requires FindConta(parentId, lista).None?
    ensures AddSubConta(lista, parentId, nova) == lista
    decreases lista
  {
    if lista != [] {
      AddUnknownParent(lista[0].subContas, parentId, nova);
      AddUnknownParent(lista[1..], parentId, nova);
    }
  }

  lemma {:induction false} PreOrderAppend(a: seq<Conta>, b: seq<Conta>)
    ensures PreOrder(a + b) == PreOrder(a) + PreOrder(b)
  {
    if a == [] {
      assert a + b == b;
    } else {
      assert (a + b)[0] == a[0];
      assert (a + b)[1..] == a[1..] + b;
      PreOrderAppend(a[1..], b);
    }
  }

  /** No account is lost or altered by adding: each keeps its id, code, description, degree and total. */
  lemma {:induction false} AddKeepsEveryAccount(lista: seq<Conta>, parentId: string, nova: Conta)
    ensures forall c :: c in PreOrder(lista) ==>
      exists d :: d in PreOrder(AddSubConta(lista, parentId, nova)) && d.(subContas := []) == c.(subContas := [])
    decreases lista
  {
    if lista != [] {
      var c := lista[0];
      var r := AddSubConta(lista, parentId, nova);
      var c' := r[0];
      assert r == [c'] + AddSubConta(lista[1..], parentId, nova);
      assert PreOrder(r) == [c'] + PreOrder(c'.subContas) + PreOrder(AddSubConta(lista[1..], parentId, nova));
      AddKeepsEveryAccount(lista[1..], parentId, nova);
      if c.id == parentId {
        PreOrderAppend(c.subContas, [nova]);
        assert c'.subContas == c.subContas + [nova];
      } else {
        AddKeepsEveryAccount(c.subContas, parentId, nova);
        assert c'.subContas == AddSubConta(c.subContas, parentId, nova);
      }
      forall x | x in PreOrder(lista)
        ensures exists d :: d in PreOrder(r) && d.(subContas := []) == x.(subContas := [])
      {
        if x == c {
          assert c' in PreOrder(r);
        } else if x in PreOrder(c.subContas) {
          var d :| d in PreOrder(c'.subContas) && d.(subContas := []) == x.(subContas := []);
          assert d in PreOrder(r);
        } else {
          assert x in PreOrder(lista[1..]);
          var d :| d in PreOrder(AddSubConta(lista[1..], parentId, nova)) && d.(subContas := []) == x.(subContas := []);
          assert d in PreOrder(r);
        }
      }
    }
  }

  /** The account carrying `id`, as a filter predicate. */
  function HasId(id: string): Conta -> bool
  {
    (c: Conta) => c.id == id
  }

  /** No account in the subtree rooted at `c` carries `parentId`. */
  predicate Untouched(c: Conta, parentId: string)
  {
    forall d :: d in PreOrder([c]) ==> d.id != parentId
  }

  lemma PreOrderSingle(c: Conta)
    ensures PreOrder([c]) == [c] + PreOrder(c.subContas)
  {
    assert [c][1..] == [];
  }

  /** A forest in which no account carries `parentId` is left as it was. */
  lemma AddUntouchedForest(lista: seq<Conta>, parentId: string, nova: Conta)
    requires forall d :: d in PreOrder(lista) ==> d.id != parentId
    ensures AddSubConta(lista, parentId, nova) == lista
  {
    FindContaIsFirstInPreOrder(parentId, lista);
    AddUnknownParent(lista, parentId, nova);
  }

  /**
   * Nothing away from the parent changes: every account whose subtree holds
   * no account with `parentId` is still in the forest, children and all.
   */
  lemma {:induction false} AddKeepsUntouched(lista: seq<Conta>, parentId: string, nova: Conta)
    ensures forall c :: c in PreOrder(lista) && Untouched(c, parentId) ==>
      c in PreOrder(AddSubConta(lista, parentId, nova))
    decreases lista
  {
    if lista != [] {
      var c := lista[0];
      var r := AddSubConta(lista, parentId, nova);
      var c', rest' := r[0], AddSubConta(lista[1..], parentId, nova);
      assert r == [c'] + rest';
      assert PreOrder(r) == [c'] + PreOrder(c'.subContas) + PreOrder(rest');
      AddKeepsUntouched(lista[1..], parentId, nova);
      if c.id == parentId {
        PreOrderAppend(c.subContas, [nova]);
        assert c'.subContas == c.subContas + [nova];
      } else {
        AddKeepsUntouched(c.subContas, parentId, nova);
        assert c'.subContas == AddSubConta(c.subContas, parentId, nova);
      }
      forall x | x in PreOrder(lista) && Untouched(x, parentId)
        ensures x in PreOrder(r)
      {
        if x == c {
          PreOrderSingle(c);
          AddUntouchedForest(c.subContas, parentId, nova);
          assert c' == c;
        } else if x in PreOrder(c.subContas) {
          assert x in PreOrder(c'.subContas);
        } else {
          assert x in PreOrder(lista[1..]);
        }
      }
    }
  }

  /** The accounts carrying `parentId`, counted node, then children, then siblings. */
  lemma CountSplit(lista: seq<Conta>, parentId: string)
    requires lista != []
    ensures |Filter(PreOrder(lista), HasId(parentId))| ==
      (if lista[0].id == parentId then 1 else 0) +
      |Filter(PreOrder(lista[0].subContas), HasId(parentId))| + |Filter(PreOrder(lista[1..]), HasId(parentId))|
  {
    var c := lista[0];
    assert PreOrder(lista) == [c] + PreOrder(c.subContas) + PreOrder(lista[1..]);
    FilterAppend([c] + PreOrder(c.subContas), PreOrder(lista[1..]), HasId(parentId));
    FilterAppend([c], PreOrder(c.subContas), HasId(parentId));
    assert Filter([c], HasId(parentId)) == if c.id == parentId then [c] else [];
  }

  /** The size of the pre-order after adding, node by node. */
  lemma SizeAfterAdd(lista: seq<Conta>, parentId: string, nova: Conta)
    requires lista != []
    ensures |PreOrder(AddSubConta(lista, parentId, nova))| ==
      1 + |PreOrder(AddSubConta(lista[1..], parentId, nova))| +
      (if lista[0].id == parentId then |PreOrder(lista[0].subContas)| + |PreOrder([nova])|
       else |PreOrder(AddSubConta(lista[0].subContas, parentId, nova))|)
  {
    var c := lista[0];
    var r := AddSubConta(lista, parentId, nova);
    var c', rest' := r[0], AddSubConta(lista[1..], parentId, nova);
    assert r == [c'] + rest';
    assert PreOrder(r) == [c'] + PreOrder(c'.subContas) + PreOrder(rest');
    if c.id == parentId {
      PreOrderAppend(c.subContas, [nova]);
      assert c'.subContas == c.subContas + [nova];
    } else {
      assert c'.subContas == AddSubConta(c.subContas, parentId, nova);
    }
  }

  /** A forest with no account carrying `parentId` is left as it was. */
  lemma NoneCounted(lista: seq<Conta>, parentId: string, nova: Conta)
    requires |Filter(PreOrder(lista), HasId(parentId))| == 0
    ensures AddSubConta(lista, parentId, nova) == lista
  {
    forall d | d in PreOrder(lista)
      ensures d.id != parentId
    {
      assert d !in Filter(PreOrder(lista), HasId(parentId));
    }
    AddUntouchedForest(lista, parentId, nova);
  }

  /**
   * Where at most one account carries `parentId`, the pre-order grows by the
   * new account's subtree once for that account and not at all otherwise.
   */
  lemma {:induction false} AddGrowth(lista: seq<Conta>, parentId: string, nova: Conta)
    requires |Filter(PreOrder(lista), HasId(parentId))| <= 1
    ensures |PreOrder(AddSubConta(lista, parentId, nova))| ==
      |PreOrder(lista)| + |Filter(PreOrder(lista), HasId(parentId))| * |PreOrder([nova])|
    decreases lista
  {
    if lista != [] {
      var c, sub, rest := lista[0], lista[0].subContas, lista[1..];
      var k := |Filter(PreOrder(lista), HasId(parentId))|;
      var ks, kr := |Filter(PreOrder(sub), HasId(parentId))|, |Filter(PreOrder(rest), HasId(parentId))|;
      var n := |PreOrder([nova])|;
      assert |PreOrder(lista)| == 1 + |PreOrder(sub)| + |PreOrder(rest)|;
      CountSplit(lista, parentId);
      SizeAfterAdd(lista, parentId, nova);
      if c.id == parentId {
        assert k == 1 && kr == 0;
        NoneCounted(rest, parentId, nova);
      } else {
        AddGrowth(sub, parentId, nova);
        AddGrowth(rest, parentId, nova);
        assert k == ks + kr;
        assert ks * n + kr * n == k * n;
      }
    }
  }

  /** With exactly one account carrying `parentId`, adding inserts exactly the new account's subtree. */
  lemma AddUnderUniqueParent(lista: seq<Conta>, parentId: string, nova: Conta)
    requires |Filter(PreOrder(lista), HasId(parentId))| == 1
    ensures |PreOrder(AddSubConta(lista, parentId, nova))| == |PreOrder(lista)| + |PreOrder([nova])|
  {
    AddGrowth(lista, parentId, nova);
  }

  /** The next child of the same parent gets the next sequence number. */
  lemma SiblingCodesIncrement(contas: seq<Conta>, parentId: string, nova: Conta)
    requires parentId != "" && FindConta(parentId, contas).Some?
    ensures var p := FindConta(parentId, contas).value;
      GerarClassificacao(parentId, contas) == p.classificacao + "." + NatToString(|p.subContas| + 1) &&
      GerarClassificacao(parentId, AddSubConta(contas, parentId, nova)) == p.classificacao + "." + NatToString(|p.subContas| + 2)
  {
    FindAfterAdd(contas, parentId, nova);
  }

  /** Degree the form effect assigns: one more than the parent's, capped at 5; 1 at the root. */
  function GrauFor(parentId: string, contas: seq<Conta>): (g: int)
    ensures g <= MaxGrau
    ensures parentId == "" ==> g == 1
    ensures parentId != "" && FindConta(parentId, contas).Some? ==>
      g == if FindConta(parentId, contas).value.grau + 1 < MaxGrau then FindConta(parentId, contas).value.grau + 1 else MaxGrau
    ensures parentId != "" && FindConta(parentId, contas).None? ==> g == 1
  {
    var parent := if parentId != "" then FindConta(parentId, contas) else None;
    if parent.Some? then (if parent.value.grau + 1 < MaxGrau then parent.value.grau + 1 else MaxGrau) else 1
  }

  // ---------------------------------------------------------------------
  // Parent options

  datatype Opcao = Opcao(id: string, labelText: string)

  function OpcaoLabel(nivel: nat, descricao: string): string
  {
    Repeat("--", nivel) + " " + descricao
  }

  /** The options `gerarOpcoesPai(contasList, nivel)` produces. */
  function Opcoes(lista: seq<Conta>, nivel: nat): seq<Opcao>
    decreases lista
  {
    if lista == [] then []
    else
      (if lista[0].grau < MaxGrau
       then [Opcao(lista[0].id, OpcaoLabel(nivel, lista[0].descricao))] + Opcoes(lista[0].subContas, nivel + 1)
       else [])
      + Opcoes(lista[1..], nivel)
  }

  function OpcaoId(o: Opcao): string
  {
    o.id
  }

  /** Dropping the head of `a + b` leaves `a[1..] + b`, shown element by element. */
  lemma TailOfAppend(a: seq<Conta>, b: seq<Conta>)
    requires a != []
    ensures (a + b)[1..] == a[1..] + b
  {
    var l, r := (a + b)[1..], a[1..] + b;
    assert |l| == |r|;
    forall i | 0 <= i < |l| ensures l[i] == r[i] {
      if i + 1 < |a| {
        assert l[i] == a[i + 1] == r[i];
      } else {
        assert l[i] == b[i + 1 - |a|] == r[i];
      }
    }
  }

  lemma {:induction false} OpcoesAppend(a: seq<Conta>, b: seq<Conta>, nivel: nat)
    ensures Opcoes(a + b, nivel) == Opcoes(a, nivel) + Opcoes(b, nivel)
  {
    if a == [] {
      assert a + b == b;
    } else {
      assert (a + b)[0] == a[0];
      TailOfAppend(a, b);
      OpcoesAppend(a[1..], b, nivel);
    }
  }

  /** A visit is offered as a parent when it and every account above it are below degree 5. */
  predicate Offerable(v: Visit)
  {
    v.conta.grau < MaxGrau && forall a :: a in v.ancestors ==> a.grau < MaxGrau
  }

  /** The option a visit is offered as: "--" per level, a space, the description. */
  function OpcaoAt(v: Visit): Opcao
  {
    Opcao(v.conta.id, OpcaoLabel(v.nivel, v.conta.descricao))
  }

  /** Below an account of degree 5 or more nothing is offered, however deep. */
  lemma {:induction false} CappedHidesAll(lista: seq<Conta>, nivel: nat, ancestors: seq<Conta>)
    requires exists a :: a in ancestors && a.grau >= MaxGrau
    ensures Filter(Walk(lista, nivel, ancestors), Offerable) == []
    decreases lista
  {
    if lista != [] {
      var c := lista[0];
      var head := [Visit(c, nivel, ancestors)];
      var sub := Walk(c.subContas, nivel + 1, ancestors + [c]);
      var rest := Walk(lista[1..], nivel, ancestors);
      var a :| a in ancestors && a.grau >= MaxGrau;
      assert a in ancestors + [c];
      CappedHidesAll(c.subContas, nivel + 1, ancestors + [c]);
      CappedHidesAll(lista[1..], nivel, ancestors);
      FilterAppend(head + sub, rest, Offerable);
      FilterAppend(head, sub, Offerable);
      assert !Offerable(head[0]);
    }
  }

  /**
   * `gerarOpcoesPai` offers, in pre-order and with their own level, exactly
   * the accounts below degree 5 whose ancestors are all below degree 5.
   */
  lemma {:induction false} OpcoesAreOfferableWalk(lista: seq<Conta>, nivel: nat, ancestors: seq<Conta>)
    requires forall a :: a in ancestors ==> a.grau < MaxGrau
    ensures Opcoes(lista, nivel) == Map(OpcaoAt, Filter(Walk(lista, nivel, ancestors), Offerable))
    decreases lista
  {
    if lista != [] {
      var c := lista[0];
      var head := [Visit(c, nivel, ancestors)];
      var sub := Walk(c.subContas, nivel + 1, ancestors + [c]);
      var rest := Walk(lista[1..], nivel, ancestors);
      var fsub, frest := Filter(sub, Offerable), Filter(rest, Offerable);
      FilterAppend(head + sub, rest, Offerable);
      FilterAppend(head, sub, Offerable);
      OpcoesAreOfferableWalk(lista[1..], nivel, ancestors);
      var tail := Opcoes(lista[1..], nivel);
      assert tail == Map(OpcaoAt, frest);
      if c.grau < MaxGrau {
        OfferedHead(c, nivel, ancestors, sub, rest);
        OpcoesAreOfferableWalk(c.subContas, nivel + 1, ancestors + [c]);
        MapAppend(OpcaoAt, head + fsub, frest);
        MapAppend(OpcaoAt, head, fsub);
        assert Opcoes(lista, nivel) == [OpcaoAt(head[0])] + Opcoes(c.subContas, nivel + 1) + tail;
      } else {
        CappedHead(c, nivel, ancestors, sub, rest);
        assert Opcoes(lista, nivel) == tail;
      }
    }
  }

  /** An offerable head visit is kept by the filter. */
  lemma OfferedHead(c: Conta, nivel: nat, ancestors: seq<Conta>, sub: seq<Visit>, rest: seq<Visit>)
    requires c.grau < MaxGrau && forall a :: a in ancestors ==> a.grau < MaxGrau
    requires Filter([Visit(c, nivel, ancestors)] + sub + rest, Offerable)
      == Filter([Visit(c, nivel, ancestors)], Offerable) + Filter(sub, Offerable) + Filter(rest, Offerable)
    ensures Filter([Visit(c, nivel, ancestors)] + sub + rest, Offerable)
      == [Visit(c, nivel, ancestors)] + Filter(sub, Offerable) + Filter(rest, Offerable)
    ensures forall a :: a in ancestors + [c] ==> a.grau < MaxGrau
  {
    var head := [Visit(c, nivel, ancestors)];
    assert Offerable(head[0]);
    assert Filter(head, Offerable) == head;
  }

  /** A capped head visit hides itself and its whole subtree. */
  lemma CappedHead(c: Conta, nivel: nat, ancestors: seq<Conta>, sub: seq<Visit>, rest: seq<Visit>)
    requires c.grau >= MaxGrau && sub == Walk(c.subContas, nivel + 1, ancestors + [c])
    requires Filter([Visit(c, nivel, ancestors)] + sub + rest, Offerable)
      == Filter([Visit(c, nivel, ancestors)], Offerable) + Filter(sub, Offerable) + Filter(rest, Offerable)
    ensures Filter([Visit(c, nivel, ancestors)] + sub + rest, Offerable) == Filter(rest, Offerable)
  {
    var head := [Visit(c, nivel, ancestors)];
    assert !Offerable(head[0]);
    assert Filter(head, Offerable) == [];
    assert c in ancestors + [c];
    CappedHidesAll(c.subContas, nivel + 1, ancestors + [c]);
  }

  /**
   * An account of the forest is offered exactly when it and all its
   * ancestors are below degree 5; a degree-5 account hides every descendant.
   */
  lemma OpcoesMembers(lista: seq<Conta>, o: Opcao)
    ensures o in Opcoes(lista, 0) <==>
      exists v :: v in Walk(lista, 0, []) && Offerable(v) && o == OpcaoAt(v)
  {
    OpcoesAreOfferableWalk(lista, 0, []);
    MapFilterMember(OpcaoAt, Offerable, Walk(lista, 0, []), o);
  }

  /** When no account has reached degree 5, every account is offered, in pre-order. */
  lemma {:induction false} OpcoesUncapped(lista: seq<Conta>, nivel: nat)
    requires forall c :: c in PreOrder(lista) ==> c.grau < MaxGrau
    ensures Map(OpcaoId, Opcoes(lista, nivel)) == Map(ContaId, PreOrder(lista))
    decreases lista
  {
    if lista != [] {
      var c := lista[0];
      OpcoesUncapped(c.subContas, nivel + 1);
      OpcoesUncapped(lista[1..], nivel);
      var head := [Opcao(c.id, OpcaoLabel(nivel, c.descricao))];
      MapAppend(OpcaoId, head + Opcoes(c.subContas, nivel + 1), Opcoes(lista[1..], nivel));
      MapAppend(OpcaoId, head, Opcoes(c.subContas, nivel + 1));
      MapAppend(ContaId, [c] + PreOrder(c.subContas), PreOrder(lista[1..]));
      MapAppend(ContaId, [c], PreOrder(c.subContas));
    }
  }

  /** An account of degree 5 or more hides itself and its whole subtree from the options. */
  lemma OpcoesHideSubtree(lista: seq<Conta>, i: nat, nivel: nat)
    requires i < |lista| && lista[i].grau >= MaxGrau
    ensures Opcoes(lista, nivel) == Opcoes(lista[..i], nivel) + Opcoes(lista[i + 1..], nivel)
  {
    assert lista == lista[..i] + ([lista[i]] + lista[i + 1..]);
    OpcoesAppend(lista[..i], [lista[i]] + lista[i + 1..], nivel);
    OpcoesAppend([lista[i]], lista[i + 1..], nivel);
  }

  // ---------------------------------------------------------------------
  // The page

  datatype NovaConta = NovaConta(descricao: string, classificacao: string, grau: int, parentId: string)

  const NovaContaInicial := NovaConta("", "", 1, "")

  const AlertaGrau := "Não é possível adicionar uma conta com grau maior que 5."

  class PlanoDeContasPage {
    var contas: seq<Conta>
    var expandedRows: set<string>
    var showModal: bool
    var novaConta: NovaConta

    constructor ()
      ensures contas == [] && expandedRows == {} && !showModal && novaConta == NovaContaInicial
    {
      contas := [];
      expandedRows := {};
      showModal := false;
      novaConta := NovaContaInicial;
    }

    method ToggleRow(contaId: string)
      modifies this`expandedRows
      ensures expandedRows == Toggled(old(expandedRows), contaId)
    {
      var newExpanded := expandedRows;
      if contaId in newExpanded {
        newExpanded := newExpanded - {contaId};
      } else {
        newExpanded := newExpanded + {contaId};
      }
      expandedRows := newExpanded;
    }

    /** `renderRows`: one row per account, children right after an expanded parent. */
    method RenderRows(contasList: seq<Conta>, level: nat) returns (rows: seq<Row>)
      ensures rows == Rows(contasList, level, expandedRows)
      decreases contasList
    {
      rows := [];
      var i := 0;
      while i < |contasList|
        invariant 0 <= i <= |contasList|
        invariant rows == Rows(contasList[..i], level, expandedRows)
      {
        var conta := contasList[i];
        var own := [MakeRow(conta, level, expandedRows)];
        if conta.id in expandedRows {
          var sub := RenderRows(conta.subContas, level + 1);
          own := own + sub;
        }
        assert own == Rows([conta], level, expandedRows);
        rows := rows + own;
        assert contasList[..i + 1] == contasList[..i] + [conta];
        RowsAppend(contasList[..i], [conta], level, expandedRows);
        i := i + 1;
      }
      assert contasList[..i] == contasList;
    }

    /** `gerarOpcoesPai`: accounts below degree 5, indented by nesting level. */
    method GerarOpcoesPai(contasList: seq<Conta>, nivel: nat) returns (opcoes: seq<Opcao>)
      ensures opcoes == Opcoes(contasList, nivel)
      decreases contasList
    {
      opcoes := [];
      var i := 0;
      while i < |contasList|
        invariant 0 <= i <= |contasList|
        invariant opcoes == Opcoes(contasList[..i], nivel)
      {
        var c := contasList[i];
        var own: seq<Opcao> := [];
        if c.grau < MaxGrau {
          var sub: seq<Opcao> := [];
          if |c.subContas| > 0 {
            sub := GerarOpcoesPai(c.subContas, nivel + 1);
          }
          assert sub == Opcoes(c.subContas, nivel + 1);
          own := [Opcao(c.id, OpcaoLabel(nivel, c.descricao))] + sub;
        }
        assert own == Opcoes([c], nivel);
        opcoes := opcoes + own;
        assert contasList[..i + 1] == contasList[..i] + [c];
        OpcoesAppend(contasList[..i], [c], nivel);
        i := i + 1;
      }
      assert contasList[..i] == contasList;
    }

    method OpenModal()
      modifies this`showModal
      ensures showModal
    {
      showModal := true;
    }

    method CloseModal()
      modifies this`showModal
      ensures !showModal
    {
      showModal := false;
    }

    method SetDescricao(descricao: string)
      modifies this`novaConta
      ensures novaConta == old(novaConta).(descricao := descricao)
    {
      novaConta := novaConta.(descricao := descricao);
    }

    /** Choosing a parent, followed by the effect that recomputes the degree. */
    method SelectParent(parentId: string)
      modifies this`novaConta
      ensures novaConta == old(novaConta).(parentId := parentId, grau := GrauFor(parentId, contas))
    {
      novaConta := novaConta.(parentId := parentId);
      SyncGrau();
    }

    /** The effect on `[novaConta.parentId, contas]`. */
    method SyncGrau()
      modifies this`novaConta
      ensures novaConta == old(novaConta).(grau := GrauFor(novaConta.parentId, contas))
      ensures novaConta.grau <= MaxGrau
    {
      var parent := if novaConta.parentId != "" then FindConta(novaConta.parentId, contas) else None;
      var grau := if parent.Some? then (if parent.value.grau + 1 < MaxGrau then parent.value.grau + 1 else MaxGrau) else 1;
      novaConta := novaConta.(grau := grau);
    }

    /**
     * `adicionarConta`: refuses a degree above 5; otherwise creates the
     * account (id supplied by the caller in place of `Math.random`), places
     * it at the root or under the chosen parent, closes the modal and resets
     * the form.
     */
    method AdicionarConta(newId: string) returns (alert: Option<string>)
      modifies this`contas, this`showModal, this`novaConta
      ensures old(novaConta.grau) > MaxGrau ==>
        alert == Some(AlertaGrau) && contas == old(contas) && showModal == old(showModal) && novaConta == old(novaConta)
      ensures old(novaConta.grau) <= MaxGrau ==>
        var nova := Conta(newId, GerarClassificacao(old(novaConta.parentId), old(contas)),
                          old(novaConta.descricao), old(novaConta.grau), 0.0, []);
        alert == None &&
        contas == (if old(novaConta.parentId) == "" then old(contas) + [nova]
                   else AddSubConta(old(contas), old(novaConta.parentId), nova)) &&
        !showModal && novaConta == NovaContaInicial
    {
      if novaConta.grau > MaxGrau {
        return Some(AlertaGrau);
      }
      var classificacaoGerada := GerarClassificacao(novaConta.parentId, contas);
      var contaToAdd := Conta(newId, classificacaoGerada, novaConta.descricao, novaConta.grau, 0.0, []);
      if novaConta.parentId == "" {
        contas := contas + [contaToAdd];
      } else {
        contas := AddSubConta(contas, novaConta.parentId, contaToAdd);
      }
      showModal := false;
      novaConta := NovaContaInicial;
      alert := None;
    }
  }

  /** The degree the form holds after the effect never triggers the "degree above 5" alert. */
  lemma SyncedGrauNeverRejected(parentId: string, contas: seq<Conta>)
    ensures !(GrauFor(parentId, contas) > MaxGrau)
  {
  }
}
