/** The permission catalogue of the role configuration page
    (`src/app/configuracoes/perfis/page.tsx`): `PERMISSION_LABELS` and its grouping by category. */
module PermissionCatalogue {
  import opened Types
  import Seqs

  datatype PermissionInfo = PermissionInfo(permission: Permission, name: string, category: string)

  datatype CategoryGroup = CategoryGroup(category: string, permissions: seq<Permission>)

  /** `PERMISSION_LABELS`, in declaration order (descriptions left out). */
  function PermissionLabels(): seq<PermissionInfo> {[
    PermissionInfo(VIEW_SERVICES, "Ver Servi\U{e7}os", "Servi\U{e7}os"),
    PermissionInfo(CREATE_SERVICE, "Criar Servi\U{e7}o", "Servi\U{e7}os"),
    PermissionInfo(EDIT_SERVICE, "Editar Servi\U{e7}o", "Servi\U{e7}os"),
    PermissionInfo(DELETE_SERVICE, "Deletar Servi\U{e7}o", "Servi\U{e7}os"),
    PermissionInfo(CHANGE_STATUS, "Mudar Status", "Servi\U{e7}os"),
    PermissionInfo(VIEW_DOCUMENTS, "Ver Documentos", "Documentos"),
    PermissionInfo(UPLOAD_DOCUMENTS, "Enviar Documentos", "Documentos"),
    PermissionInfo(DELETE_DOCUMENTS, "Deletar Documentos", "Documentos"),
    PermissionInfo(VIEW_USERS, "Ver Usu\U{e1}rios", "Usu\U{e1}rios"),
    PermissionInfo(MANAGE_USERS, "Gerenciar Usu\U{e1}rios", "Usu\U{e1}rios"),
    PermissionInfo(VIEW_ALL_SERVICES, "Ver Todos Servi\U{e7}os", "Especial"),
    PermissionInfo(ASSIGN_SERVICES, "Atribuir Servi\U{e7}os", "Especial"),
    PermissionInfo(VIEW_STATISTICS, "Ver Estat\U{ed}sticas", "Especial"),
    PermissionInfo(EXPORT_DATA, "Exportar Dados", "Especial"),
    PermissionInfo(ACCESS_STEP_1, "Passo 1", "Acesso por Fase"),
    PermissionInfo(ACCESS_STEP_2, "Passo 2", "Acesso por Fase"),
    PermissionInfo(ACCESS_STEP_3, "Passo 3", "Acesso por Fase"),
    PermissionInfo(ACCESS_STEP_4, "Passo 4", "Acesso por Fase"),
    PermissionInfo(ACCESS_STEP_5, "Passo 5", "Acesso por Fase"),
    PermissionInfo(ACCESS_STEP_6, "Passo 6", "Acesso por Fase"),
    PermissionInfo(ACCESS_STEP_7, "Passo 7", "Acesso por Fase"),
    PermissionInfo(ACCESS_STEP_8, "Passo 8", "Acesso por Fase"),
    PermissionInfo(ACCESS_CANCELLED, "Cancelado", "Acesso por Fase"),
    PermissionInfo(ACCESS_SUBMITTED, "Submetido", "Acesso por Fase"),
    PermissionInfo(ACCESS_UNDER_ANALYSIS, "Em An\U{e1}lise", "Acesso por Fase"),
    PermissionInfo(ACCESS_WAITING_RESPONSE, "Aguardando Resposta", "Acesso por Fase"),
    PermissionInfo(ACCESS_FOR_DECISION, "Para Decis\U{e3}o", "Acesso por Fase"),
    PermissionInfo(ACCESS_COMPLETED, "Conclu\U{ed}do", "Acesso por Fase")
  ]}

  function Categories(labels: seq<PermissionInfo>): (r: seq<string>)
    ensures |r| == |labels| && forall k :: 0 <= k < |labels| ==> r[k] == labels[k].category
  {
    seq(|labels|, k requires 0 <= k < |labels| => labels[k].category)
  }

  function Tokens(labels: seq<PermissionInfo>): (r: seq<Permission>)
    ensures |r| == |labels| && forall k :: 0 <= k < |labels| ==> r[k] == labels[k].permission
  {
    seq(|labels|, k requires 0 <= k < |labels| => labels[k].permission)
  }

  function OfCategory(labels: seq<PermissionInfo>, c: string): seq<PermissionInfo> {
    Seqs.Filter((x: PermissionInfo) => x.category == c, labels)
  }

  /** The permissions of category `c`, in declaration order. */
  function InCategory(labels: seq<PermissionInfo>, c: string): (r: seq<Permission>)
    ensures forall p :: p in r <==> exists k :: 0 <= k < |labels| && labels[k].permission == p && labels[k].category == c
  {
    var r := Tokens(OfCategory(labels, c));
    assert forall e :: e in OfCategory(labels, c) <==> e in labels && e.category == c;
    r
  }

  lemma {:induction false} InCategorySnoc(labels: seq<PermissionInfo>, e: PermissionInfo, c: string)
    ensures InCategory(labels + [e], c) == InCategory(labels, c) + (if e.category == c then [e.permission] else [])
  {
    Seqs.FilterAppend((x: PermissionInfo) => x.category == c, labels, [e]);
  }

  lemma CategoriesSnoc(ls: seq<PermissionInfo>, e: PermissionInfo)
    ensures Categories(ls + [e]) == Categories(ls) + [e.category]
  {
  }

  /** A category that no entry carries has no permissions. */
  lemma {:induction false} InCategoryAbsent(ls: seq<PermissionInfo>, c: string)
    requires c !in Categories(ls)
    ensures InCategory(ls, c) == []
    decreases |ls|
  {
    if |ls| > 0 {
      var init, last := ls[..|ls| - 1], ls[|ls| - 1];
      assert ls == init + [last];
      CategoriesSnoc(init, last);
      InCategorySnoc(init, last, c);
      InCategoryAbsent(init, c);
    }
  }

  /** The reduce's accumulator: the keys in insertion order and the arrays per key. */
  datatype Accumulator = Accumulator(order: seq<string>, groups: map<string, seq<Permission>>)

  /** One step of the reduce: create the category's array if missing, then push. */
  function Push(a: Accumulator, e: PermissionInfo): Accumulator {
    Accumulator(if e.category in a.groups then a.order else a.order + [e.category],
                a.groups[e.category := (if e.category in a.groups then a.groups[e.category] else []) + [e.permission]])
  }

  /** The reduce over the entries `ls`, from an empty object. */
  function Reduce(ls: seq<PermissionInfo>): Accumulator
    decreases |ls|
  {
    if |ls| == 0 then Accumulator([], map[]) else Push(Reduce(ls[..|ls| - 1]), ls[|ls| - 1])
  }

  /** The object's keys are exactly the categories recorded in the key order. */
  lemma {:induction false} ReduceKeys(ls: seq<PermissionInfo>)
    ensures forall c :: c in Reduce(ls).groups <==> c in Reduce(ls).order
    decreases |ls|
  {
    if |ls| > 0 {
      ReduceKeys(ls[..|ls| - 1]);
    }
  }

  /** The keys come in order of first appearance of each category. */
  lemma {:induction false} ReduceOrder(ls: seq<PermissionInfo>)
    ensures Reduce(ls).order == Seqs.FirstOccurrences(Categories(ls))
    decreases |ls|
  {
    if |ls| > 0 {
      var init, last := ls[..|ls| - 1], ls[|ls| - 1];
      assert ls == init + [last];
      ReduceOrder(init);
      ReduceKeys(init);
      CategoriesSnoc(init, last);
      Seqs.FirstOccurrencesSnoc(Categories(init), last.category);
    }
  }

  /** Each key holds the permissions of its category, in declaration order. */
  lemma {:induction false} ReduceGroups(ls: seq<PermissionInfo>)
    ensures forall c :: c in Reduce(ls).groups ==> Reduce(ls).groups[c] == InCategory(ls, c)
    decreases |ls|
  {
    if |ls| > 0 {
      var init, last := ls[..|ls| - 1], ls[|ls| - 1];
      assert ls == init + [last];
      ReduceGroups(init);
      forall c | c in Reduce(ls).groups ensures Reduce(ls).groups[c] == InCategory(ls, c) {
        InCategorySnoc(init, last, c);
        if c == last.category && c !in Reduce(init).groups {
          ReduceKeys(init);
          ReduceOrder(init);
          InCategoryAbsent(init, c);
        }
      }
    }
  }

  /** `Object.entries(PERMISSION_LABELS).reduce(…)`: one pass over the entries, pushing each
      permission onto its category's array, creating the array on first sight. */
  method GroupByCategory(labels: seq<PermissionInfo>) returns (order: seq<string>, acc: map<string, seq<Permission>>)
    ensures Accumulator(order, acc) == Reduce(labels)
  {
    acc := map[];
    order := [];
    var i := 0;
    while i < |labels|
      invariant 0 <= i <= |labels|
      invariant Accumulator(order, acc) == Reduce(labels[..i])
    {
      var category := labels[i].category;
      assert labels[..i + 1][..i] == labels[..i];
      // `if (!acc[category]) acc[category] = []; acc[category].push(perm)`; a new key
      // also joins the key order
      if category !in acc {
        order := order + [category];
        acc := acc[category := []];
      }
      acc := acc[category := acc[category] + [labels[i].permission]];
      i := i + 1;
    }
    assert labels[..i] == labels;
  }

  /** `Object.entries(permissionsByCategory)`: one group per key, in key order. */
  method Entries(order: seq<string>, acc: map<string, seq<Permission>>) returns (groups: seq<CategoryGroup>)
    requires forall c :: c in order ==> c in acc
    ensures |groups| == |order|
    ensures forall j :: 0 <= j < |order| ==> groups[j] == CategoryGroup(order[j], acc[order[j]])
  {
    groups := [];
    var j := 0;
    while j < |order|
      invariant 0 <= j <= |order|
      invariant |groups| == j
      invariant forall k :: 0 <= k < j ==> groups[k] == CategoryGroup(order[k], acc[order[k]])
    {
      groups := groups + [CategoryGroup(order[j], acc[order[j]])];
      j := j + 1;
    }
  }

  /** The groups the page renders: one per category, in order of first appearance, each holding
      that category's permissions in declaration order. */
  method PermissionsByCategory(labels: seq<PermissionInfo>) returns (groups: seq<CategoryGroup>)
    ensures |groups| == |Seqs.FirstOccurrences(Categories(labels))|
    ensures forall j :: 0 <= j < |groups| ==>
      groups[j] == CategoryGroup(Seqs.FirstOccurrences(Categories(labels))[j], InCategory(labels, groups[j].category))
  {
    var order, acc := GroupByCategory(labels);
    ReduceKeys(labels);
    groups := Entries(order, acc);
    ReduceOrder(labels);
    ReduceGroups(labels);
  }

  /** Every entry shows up in its own category's group. */
  lemma EntryInOwnGroup(labels: seq<PermissionInfo>, k: int)
    requires 0 <= k < |labels|
    ensures labels[k].category in Seqs.FirstOccurrences(Categories(labels))
    ensures labels[k].permission in InCategory(labels, labels[k].category)
  {
    assert Categories(labels)[k] == labels[k].category;
  }

  /** When no permission is listed twice, a permission lies in one group only. */
  lemma {:induction false} GroupsDisjoint(labels: seq<PermissionInfo>, p: Permission, c1: string, c2: string)
    requires Seqs.Distinct(Tokens(labels))
    requires p in InCategory(labels, c1) && p in InCategory(labels, c2)
    ensures c1 == c2
  {
    var k1 :| 0 <= k1 < |labels| && labels[k1].permission == p && labels[k1].category == c1;
    var k2 :| 0 <= k2 < |labels| && labels[k2].permission == p && labels[k2].category == c2;
    assert Tokens(labels)[k1] == Tokens(labels)[k2];
  }

  // ----- the concrete catalogue -----

  /** A permission's position in the declaration of `PERMISSION_LABELS`. */
  function Rank(p: Permission): (n: nat)
    ensures n < 28
  {
    match p
    case VIEW_SERVICES => 0
    case CREATE_SERVICE => 1
    case EDIT_SERVICE => 2
    case DELETE_SERVICE => 3
    case CHANGE_STATUS => 4
    case VIEW_DOCUMENTS => 5
    case UPLOAD_DOCUMENTS => 6
    case DELETE_DOCUMENTS => 7
    case VIEW_USERS => 8
    case MANAGE_USERS => 9
    case VIEW_ALL_SERVICES => 10
    case ASSIGN_SERVICES => 11
    case VIEW_STATISTICS => 12
    case EXPORT_DATA => 13
    case ACCESS_STEP_1 => 14
    case ACCESS_STEP_2 => 15
    case ACCESS_STEP_3 => 16
    case ACCESS_STEP_4 => 17
    case ACCESS_STEP_5 => 18
    case ACCESS_STEP_6 => 19
    case ACCESS_STEP_7 => 20
    case ACCESS_STEP_8 => 21
    case ACCESS_CANCELLED => 22
    case ACCESS_SUBMITTED => 23
    case ACCESS_UNDER_ANALYSIS => 24
    case ACCESS_WAITING_RESPONSE => 25
    case ACCESS_FOR_DECISION => 26
    case ACCESS_COMPLETED => 27
  }

  /** The permission declared at position `n`. */
  function PermissionAt(n: nat): Permission
    requires n < 28
  {
    if n == 0 then VIEW_SERVICES
    else if n == 1 then CREATE_SERVICE
    else if n == 2 then EDIT_SERVICE
    else if n == 3 then DELETE_SERVICE
    else if n == 4 then CHANGE_STATUS
    else if n == 5 then VIEW_DOCUMENTS
    else if n == 6 then UPLOAD_DOCUMENTS
    else if n == 7 then DELETE_DOCUMENTS
    else if n == 8 then VIEW_USERS
    else if n == 9 then MANAGE_USERS
    else if n == 10 then VIEW_ALL_SERVICES
    else if n == 11 then ASSIGN_SERVICES
    else if n == 12 then VIEW_STATISTICS
    else if n == 13 then EXPORT_DATA
    else if n == 14 then ACCESS_STEP_1
    else if n == 15 then ACCESS_STEP_2
    else if n == 16 then ACCESS_STEP_3
    else if n == 17 then ACCESS_STEP_4
    else if n == 18 then ACCESS_STEP_5
    else if n == 19 then ACCESS_STEP_6
    else if n == 20 then ACCESS_STEP_7
    else if n == 21 then ACCESS_STEP_8
    else if n == 22 then ACCESS_CANCELLED
    else if n == 23 then ACCESS_SUBMITTED
    else if n == 24 then ACCESS_UNDER_ANALYSIS
    else if n == 25 then ACCESS_WAITING_RESPONSE
    else if n == 26 then ACCESS_FOR_DECISION
    else ACCESS_COMPLETED
  }

  /** `PermissionAt` undoes `Rank`, so no two permissions share a position. */
  lemma PermissionAtRank(p: Permission)
    ensures PermissionAt(Rank(p)) == p
  {
  }

  /** The entries are declared in `Rank` order; checked four positions at a time. */
  lemma RankAt0(k: int)
    requires 0 <= k < 4
    ensures Rank(PermissionLabels()[k].permission) == k
  {
  }

  lemma RankAt4(k: int)
    requires 4 <= k < 8
    ensures Rank(PermissionLabels()[k].permission) == k
  {
  }

  lemma RankAt8(k: int)
    requires 8 <= k < 12
    ensures Rank(PermissionLabels()[k].permission) == k
  {
  }

  lemma RankAt12(k: int)
    requires 12 <= k < 16
    ensures Rank(PermissionLabels()[k].permission) == k
  {
  }

  lemma RankAt16(k: int)
    requires 16 <= k < 20
    ensures Rank(PermissionLabels()[k].permission) == k
  {
  }

  lemma RankAt20(k: int)
    requires 20 <= k < 24
    ensures Rank(PermissionLabels()[k].permission) == k
  {
  }

  lemma RankAt24(k: int)
    requires 24 <= k < 28
    ensures Rank(PermissionLabels()[k].permission) == k
  {
  }

  /** The entry at position `k` holds the permission of rank `k`. */
  lemma RankAt(k: int)
    requires 0 <= k < |PermissionLabels()|
    ensures Rank(PermissionLabels()[k].permission) == k
  {
    if k < 4 { RankAt0(k); } else if k < 8 { RankAt4(k); } else if k < 12 { RankAt8(k); }
    else if k < 16 { RankAt12(k); } else if k < 20 { RankAt16(k); } else if k < 24 { RankAt20(k); }
    else { RankAt24(k); }
  }

  /** No permission is listed twice in the catalogue. */
  lemma CatalogueDistinct()
    ensures Seqs.Distinct(Tokens(PermissionLabels()))
  {
    var ts := Tokens(PermissionLabels());
    forall i, j | 0 <= i < j < |ts| ensures ts[i] != ts[j] {
      RankAt(i);
      RankAt(j);
    }
  }

  /** Every permission is listed, at the position `Rank` gives it. */
  lemma CatalogueComplete(p: Permission)
    ensures Rank(p) < |PermissionLabels()| && PermissionLabels()[Rank(p)].permission == p
  {
    var q := PermissionLabels()[Rank(p)].permission;
    RankAt(Rank(p));
    PermissionAtRank(q);
    PermissionAtRank(p);
  }

  /** Every permission is shown in exactly one group: the group of the category it is declared with. */
  lemma EachPermissionInOneGroup(p: Permission, c: string)
    ensures var home := PermissionLabels()[Rank(p)].category;
      && home in Seqs.FirstOccurrences(Categories(PermissionLabels()))
      && p in InCategory(PermissionLabels(), home)
      && (p in InCategory(PermissionLabels(), c) ==> c == home)
  {
    var ls := PermissionLabels();
    CatalogueComplete(p);
    EntryInOwnGroup(ls, Rank(p));
    if p in InCategory(ls, c) {
      CatalogueDistinct();
      GroupsDisjoint(ls, p, c, ls[Rank(p)].category);
    }
  }
}
