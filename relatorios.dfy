/**
 * pages/relatorios.py: units sold and product spend per product group and category, over
 * the joined and filtered ledger rows, largest unit count first.
 */
module Relatorios {
  import opened Wrappers
  import opened Text
  import opened Schema
  import opened Consultas

  // ---- the per-row columns ----

  /** `quantidade * quantidadeKit`: the single units a ledger row shipped. */
  function UnidadesVendidas(l: LinhaCompleta): int {
    l.venda.quantidade * l.produto.quantidadeKit
  }

  /** `custoUnidade * quantidadeKit * quantidade`: the product spend of a row, supplies excluded. */
  function GastoProduto(l: LinhaCompleta): real {
    l.produto.custoUnidade * (l.produto.quantidadeKit as real) * (l.venda.quantidade as real)
  }

  // ---- extrair_grupo ----

  /** Position `p` starts a match of the group pattern: `" - "`, or a space followed by a digit. */
  predicate SeparadorEm(s: string, p: nat) {
    || (p + 3 <= |s| && s[p] == ' ' && s[p + 1] == '-' && s[p + 2] == ' ')
    || (p + 2 <= |s| && s[p] == ' ' && IsDigit(s[p + 1]))
  }

  /**
   * Where `re.split` cuts for its first piece: the earliest position at or after `desde`
   * where a separator starts, or the end of the name when there is none.
   */
  function Corte(s: string, desde: nat): (p: nat)
    requires desde <= |s|
    ensures desde <= p <= |s|
    ensures p == |s| || SeparadorEm(s, p)
    ensures forall q :: desde <= q < p ==> !SeparadorEm(s, q)
    decreases |s| - desde
  {
    if desde == |s| || SeparadorEm(s, desde) then desde else Corte(s, desde + 1)
  }

  /** `extrair_grupo`: the first piece of the split, stripped. */
  function ExtrairGrupo(nome: string): string {
    Strip(nome[..Corte(nome, 0)])
  }

  /**
   * The group is the stripped prefix before the earliest separator. When no separator
   * occurs it is the whole name stripped.
   */
  lemma GrupoAntesDoSeparador(nome: string, p: nat)
    requires p <= |nome| && (p == |nome| || SeparadorEm(nome, p))
    requires forall q :: 0 <= q < p ==> !SeparadorEm(nome, q)
    ensures ExtrairGrupo(nome) == Strip(nome[..p])
  {
  }

  /** A separator inside a piece of a name is a separator of the name itself. */
  lemma SeparadorDoTrecho(s: string, i: nat, j: nat, q: nat)
    requires i <= j <= |s| && q < j - i
    ensures SeparadorEm(s[i..j], q) ==> SeparadorEm(s, i + q)
  {
    var t := s[i..j];
    assert t[q] == s[i + q];
    if q + 1 < |t| { assert t[q + 1] == s[i + q + 1]; }
    if q + 2 < |t| { assert t[q + 2] == s[i + q + 2]; }
  }

  /** A piece of a name taken where no separator starts holds no separator either. */
  lemma TrechoSemSeparador(s: string, i: nat, j: nat)
    requires i <= j <= |s|
    requires forall q :: i <= q < j ==> !SeparadorEm(s, q)
    ensures forall q :: 0 <= q < j - i ==> !SeparadorEm(s[i..j], q)
  {
    forall q | 0 <= q < j - i ensures !SeparadorEm(s[i..j], q) {
      SeparadorDoTrecho(s, i, j, q);
    }
  }

  /** The group is a stretch of the name before its first separator. */
  lemma GrupoTrecho(nome: string) returns (i: nat, j: nat)
    ensures i <= j <= Corte(nome, 0) && ExtrairGrupo(nome) == nome[i..j]
  {
    var c := Corte(nome, 0);
    var pre := nome[..c];
    StripIsInfix(pre);
    i, j :| 0 <= i <= j <= |pre| && Strip(pre) == pre[i..j];
    TrechoDoPrefixo(nome, c, i, j);
  }

  lemma TrechoDoPrefixo<T>(s: seq<T>, c: nat, i: nat, j: nat)
    requires i <= j <= c <= |s|
    ensures s[..c][i..j] == s[i..j]
  {
  }

  /** A group name holds no separator of its own. */
  lemma GrupoSemSeparador(nome: string)
    ensures forall q :: 0 <= q < |ExtrairGrupo(nome)| ==> !SeparadorEm(ExtrairGrupo(nome), q)
  {
    var i, j := GrupoTrecho(nome);
    TrechoSemSeparador(nome, i, j);
  }

  /** Taking the group of a group name changes nothing. */
  lemma ExtrairGrupoIdempotente(nome: string)
    ensures ExtrairGrupo(ExtrairGrupo(nome)) == ExtrairGrupo(nome)
  {
    var g := ExtrairGrupo(nome);
    GrupoSemSeparador(nome);
    GrupoAntesDoSeparador(g, |g|);
    assert g[..|g|] == g;
    StripIdempotent(nome[..Corte(nome, 0)]);
  }

  // ---- grouping ----

  /** A filtered row with the three report columns. */
  datatype LinhaRelatorio = LinhaRelatorio(grupoProduto: string, nomeCategoria: string, unidadesVendidas: int, gastoProduto: real)

  /** The report columns of one joined row; the group key pairs its group name with its category name. */
  function Anotar(l: LinhaCompleta): LinhaRelatorio {
    LinhaRelatorio(ExtrairGrupo(l.variacao.nomeVariacao), l.categoria.nome, UnidadesVendidas(l), GastoProduto(l))
  }

  function AnotarTodas(ls: seq<LinhaCompleta>): (rs: seq<LinhaRelatorio>)
    ensures |rs| == |ls| && forall i :: 0 <= i < |ls| ==> rs[i] == Anotar(ls[i])
  {
    seq(|ls|, i requires 0 <= i < |ls| => Anotar(ls[i]))
  }

  /** One output row of the `groupby(['grupoProduto', 'nome_categoria'])` aggregation. */
  datatype Grupo = Grupo(grupoProduto: string, nomeCategoria: string, unidadesVendidas: int, gastoTotal: real)

  function ChaveDe(r: LinhaRelatorio): (string, string) { (r.grupoProduto, r.nomeCategoria) }

  function ChaveGrupo(g: Grupo): (string, string) { (g.grupoProduto, g.nomeCategoria) }

  predicate ChavesDistintas(gs: seq<Grupo>) {
    forall i, j :: 0 <= i < j < |gs| ==> ChaveGrupo(gs[i]) != ChaveGrupo(gs[j])
  }

  predicate ChaveDistinta(gs: seq<Grupo>, i: nat, j: nat)
    requires i < j < |gs|
  {
    ChaveGrupo(gs[i]) != ChaveGrupo(gs[j])
  }

  /** Reference totals: the units and the spend of the rows with key `k`. */
  function SomaUnidades(rs: seq<LinhaRelatorio>, k: (string, string)): int {
    if |rs| == 0 then 0
    else SomaUnidades(rs[..|rs| - 1], k) + if ChaveDe(rs[|rs| - 1]) == k then rs[|rs| - 1].unidadesVendidas else 0
  }

  function SomaGasto(rs: seq<LinhaRelatorio>, k: (string, string)): real {
    if |rs| == 0 then 0.0
    else SomaGasto(rs[..|rs| - 1], k) + if ChaveDe(rs[|rs| - 1]) == k then rs[|rs| - 1].gastoProduto else 0.0
  }

  /** Rows of which none has key `k` add up to nothing under `k`. */
  lemma {:induction false} SomasSemChave(rs: seq<LinhaRelatorio>, k: (string, string))
    requires forall j :: 0 <= j < |rs| ==> ChaveDe(rs[j]) != k
    ensures SomaUnidades(rs, k) == 0 && SomaGasto(rs, k) == 0.0
  {
    if |rs| > 0 {
      var p := rs[..|rs| - 1];
      assert forall j :: 0 <= j < |p| ==> p[j] == rs[j];
      SomasSemChave(p, k);
    }
  }

  /** The position of the group with key `k`, if any. */
  function PosicaoDe(gs: seq<Grupo>, k: (string, string)): (r: Option<nat>)
    ensures r.None? ==> forall i :: 0 <= i < |gs| ==> ChaveGrupo(gs[i]) != k
    ensures r.Some? ==> r.value < |gs| && ChaveGrupo(gs[r.value]) == k
  {
    if |gs| == 0 then None
    else if ChaveGrupo(gs[|gs| - 1]) == k then Some(|gs| - 1)
    else PosicaoDe(gs[..|gs| - 1], k)
  }

  /** Some group of `gs` has key `k`. */
  predicate TemGrupo(gs: seq<Grupo>, k: (string, string)) {
    exists i :: 0 <= i < |gs| && ChaveGrupo(gs[i]) == k
  }

  /**
   * Adds one row into the group of its key, opening the group when the key is new: no
   * group changes key, and at most one group, under the row's key, is opened.
   */
  function Acumular(gs: seq<Grupo>, r: LinhaRelatorio): (ns: seq<Grupo>)
    ensures |gs| <= |ns| <= |gs| + 1
    ensures forall i :: 0 <= i < |gs| ==> ChaveGrupo(ns[i]) == ChaveGrupo(gs[i])
    ensures |ns| == |gs| + 1 ==> ChaveGrupo(ns[|gs|]) == ChaveDe(r) && !TemGrupo(gs, ChaveDe(r))
    ensures TemGrupo(ns, ChaveDe(r))
  {
    match PosicaoDe(gs, ChaveDe(r))
    case Some(j) => gs[j := Grupo(gs[j].grupoProduto, gs[j].nomeCategoria,
                                  gs[j].unidadesVendidas + r.unidadesVendidas, gs[j].gastoTotal + r.gastoProduto)]
    case None =>
      var ns := gs + [Grupo(r.grupoProduto, r.nomeCategoria, r.unidadesVendidas, r.gastoProduto)];
      assert ChaveGrupo(ns[|gs|]) == ChaveDe(r);
      ns
  }

  /** The aggregation, groups in order of their key's first row. */
  function Agrupar(rs: seq<LinhaRelatorio>): seq<Grupo> {
    if |rs| == 0 then [] else Acumular(Agrupar(rs[..|rs| - 1]), rs[|rs| - 1])
  }

  /** Some row of `rs` has key `k`. */
  predicate TemChave(rs: seq<LinhaRelatorio>, k: (string, string)) {
    exists j :: 0 <= j < |rs| && ChaveDe(rs[j]) == k
  }

  /** Each group's key is the key of some row. */
  predicate ChavesDasLinhas(gs: seq<Grupo>, rs: seq<LinhaRelatorio>) {
    forall i :: 0 <= i < |gs| ==> TemChave(rs, ChaveGrupo(gs[i]))
  }

  /** Each group's totals are the sums over the rows with its key. */
  predicate TotaisDasLinhas(gs: seq<Grupo>, rs: seq<LinhaRelatorio>) {
    forall i :: 0 <= i < |gs| ==>
      && gs[i].unidadesVendidas == SomaUnidades(rs, ChaveGrupo(gs[i]))
      && gs[i].gastoTotal == SomaGasto(rs, ChaveGrupo(gs[i]))
  }

  /** Each row's key has a group. */
  predicate LinhasAgrupadas(gs: seq<Grupo>, rs: seq<LinhaRelatorio>) {
    forall j :: 0 <= j < |rs| ==> TemGrupo(gs, ChaveDe(rs[j]))
  }

  /** What the aggregation promises of its groups. */
  predicate AgrupamentoDe(gs: seq<Grupo>, rs: seq<LinhaRelatorio>) {
    ChavesDistintas(gs) && ChavesDasLinhas(gs, rs) && TotaisDasLinhas(gs, rs) && LinhasAgrupadas(gs, rs)
  }

  /**
   * Every row falls in exactly one group: the groups' keys are distinct, each key is the key
   * of some row, each row's key has a group, and each group's totals are the sums over its rows.
   */
  lemma {:induction false} AgruparCorreto(rs: seq<LinhaRelatorio>)
    ensures AgrupamentoDe(Agrupar(rs), rs)
    ensures |Agrupar(rs)| <= |rs|
  {
    if |rs| > 0 {
      var p := rs[..|rs| - 1];
      var r := rs[|rs| - 1];
      assert p + [r] == rs;
      AgruparCorreto(p);
      var gs := Agrupar(p);
      PassoDistintas(gs, r);
      PassoChaves(gs, p, r);
      PassoTotais(gs, p, r);
      PassoLinhas(gs, p, r);
    }
  }

  lemma SomasAcrescentar(p: seq<LinhaRelatorio>, r: LinhaRelatorio, k: (string, string))
    ensures SomaUnidades(p + [r], k) == SomaUnidades(p, k) + if ChaveDe(r) == k then r.unidadesVendidas else 0
    ensures SomaGasto(p + [r], k) == SomaGasto(p, k) + if ChaveDe(r) == k then r.gastoProduto else 0.0
  {
    assert (p + [r])[..|p|] == p;
  }

  lemma PassoDistintas(gs: seq<Grupo>, r: LinhaRelatorio)
    requires ChavesDistintas(gs)
    ensures ChavesDistintas(Acumular(gs, r))
  {
    var ns := Acumular(gs, r);
    forall i, j | 0 <= i < j < |ns| ensures ChaveGrupo(ns[i]) != ChaveGrupo(ns[j]) {
      if j < |gs| {
        assert ChaveGrupo(gs[i]) != ChaveGrupo(gs[j]);
      } else {
        assert !TemGrupo(gs, ChaveDe(r));
        assert ChaveGrupo(ns[i]) == ChaveGrupo(gs[i]);
      }
    }
  }

  lemma PassoChaves(gs: seq<Grupo>, p: seq<LinhaRelatorio>, r: LinhaRelatorio)
    requires ChavesDasLinhas(gs, p)
    ensures ChavesDasLinhas(Acumular(gs, r), p + [r])
  {
    var ns := Acumular(gs, r);
    var rs := p + [r];
    forall i | 0 <= i < |ns| ensures TemChave(rs, ChaveGrupo(ns[i])) {
      if i < |gs| {
        assert TemChave(p, ChaveGrupo(gs[i]));
        var j :| 0 <= j < |p| && ChaveDe(p[j]) == ChaveGrupo(gs[i]);
        assert rs[j] == p[j];
      } else {
        assert ChaveDe(rs[|p|]) == ChaveGrupo(ns[i]);
      }
    }
  }

  lemma PassoLinhas(gs: seq<Grupo>, p: seq<LinhaRelatorio>, r: LinhaRelatorio)
    requires LinhasAgrupadas(gs, p)
    ensures LinhasAgrupadas(Acumular(gs, r), p + [r])
  {
    var ns := Acumular(gs, r);
    var rs := p + [r];
    forall j | 0 <= j < |rs| ensures TemGrupo(ns, ChaveDe(rs[j])) {
      if j < |p| {
        assert rs[j] == p[j];
        assert TemGrupo(gs, ChaveDe(p[j]));
        var i :| 0 <= i < |gs| && ChaveGrupo(gs[i]) == ChaveDe(p[j]);
        assert ChaveGrupo(ns[i]) == ChaveGrupo(gs[i]);
      }
    }
  }

  lemma PassoTotais(gs: seq<Grupo>, p: seq<LinhaRelatorio>, r: LinhaRelatorio)
    requires ChavesDistintas(gs) && TotaisDasLinhas(gs, p) && LinhasAgrupadas(gs, p)
    ensures TotaisDasLinhas(Acumular(gs, r), p + [r])
  {
    var ns := Acumular(gs, r);
    var k := ChaveDe(r);
    forall i | 0 <= i < |ns| ensures && ns[i].unidadesVendidas == SomaUnidades(p + [r], ChaveGrupo(ns[i]))
                                     && ns[i].gastoTotal == SomaGasto(p + [r], ChaveGrupo(ns[i])) {
      SomasAcrescentar(p, r, ChaveGrupo(ns[i]));
      match PosicaoDe(gs, k)
      case Some(pos) =>
        if i != pos {
          assert ChaveGrupo(gs[i]) != ChaveGrupo(gs[pos]) by {
            if i < pos { assert ChaveDistinta(gs, i, pos); } else { assert ChaveDistinta(gs, pos, i); }
          }
        }
      case None =>
        if i == |gs| {
          forall j | 0 <= j < |p| ensures ChaveDe(p[j]) != k {
            assert TemGrupo(gs, ChaveDe(p[j]));
          }
          SomasSemChave(p, k);
        }
    }
  }

  // ---- sort_values(by='unidadesVendidas', ascending=False) ----

  predicate NaoCrescente(gs: seq<Grupo>) {
    forall i, j :: 0 <= i < j < |gs| ==> gs[i].unidadesVendidas >= gs[j].unidadesVendidas
  }

  /** Puts one group into a sorted list, before the first group with fewer units. */
  function Inserir(g: Grupo, gs: seq<Grupo>): (r: seq<Grupo>)
    requires NaoCrescente(gs)
    ensures NaoCrescente(r) && multiset(r) == multiset(gs) + multiset{g}
    ensures |r| == |gs| + 1
  {
    if |gs| == 0 || g.unidadesVendidas >= gs[0].unidadesVendidas then [g] + gs
    else
      var t := Inserir(g, gs[1..]);
      assert gs == [gs[0]] + gs[1..];
      assert multiset([gs[0]] + t) == multiset{gs[0]} + multiset(t);
      InserirDepois(g, gs, t);
      [gs[0]] + t
  }

  /** Inserting after the head keeps the head first. */
  lemma InserirDepois(g: Grupo, gs: seq<Grupo>, t: seq<Grupo>)
    requires NaoCrescente(gs) && |gs| > 0 && g.unidadesVendidas < gs[0].unidadesVendidas
    requires NaoCrescente(t) && multiset(t) == multiset(gs[1..]) + multiset{g}
    ensures NaoCrescente([gs[0]] + t)
  {
    forall j | 0 <= j < |t| ensures gs[0].unidadesVendidas >= t[j].unidadesVendidas {
      assert t[j] in multiset(t);
      if t[j] != g {
        assert t[j] in multiset(gs[1..]);
        var m :| 0 <= m < |gs[1..]| && gs[1..][m] == t[j];
        assert gs[1 + m] == t[j];
      }
    }
    var r := [gs[0]] + t;
    forall a, b | 0 <= a < b < |r| ensures r[a].unidadesVendidas >= r[b].unidadesVendidas {
      if a > 0 { assert r[a] == t[a - 1] && r[b] == t[b - 1]; }
      else { assert r[b] == t[b - 1]; }
    }
  }

  /** The groups ordered by total units, largest first. */
  function Ordenar(gs: seq<Grupo>): (r: seq<Grupo>)
    ensures NaoCrescente(r) && multiset(r) == multiset(gs)
  {
    if |gs| == 0 then []
    else
      assert gs == [gs[0]] + gs[1..];
      Inserir(gs[0], Ordenar(gs[1..]))
  }

  /** A row with distinct keys holds each of its groups once. */
  lemma UmaVez(gs: seq<Grupo>, i: nat)
    requires ChavesDistintas(gs) && i < |gs|
    ensures multiset(gs)[gs[i]] == 1
  {
    assert gs == gs[..i] + [gs[i]] + gs[i + 1..];
    forall j | 0 <= j < |gs| && j != i ensures gs[j] != gs[i] {
      if j < i { assert ChaveGrupo(gs[j]) != ChaveGrupo(gs[i]); }
      else { assert ChaveGrupo(gs[i]) != ChaveGrupo(gs[j]); }
    }
    assert gs[i] !in gs[..i];
    assert gs[i] !in gs[i + 1..];
  }

  /** Reordering a list with distinct keys keeps them distinct. */
  lemma DistintasReordenadas(a: seq<Grupo>, b: seq<Grupo>)
    requires ChavesDistintas(a) && multiset(a) == multiset(b)
    ensures ChavesDistintas(b)
  {
    forall i, j | 0 <= i < j < |b| ensures ChaveGrupo(b[i]) != ChaveGrupo(b[j]) {
      assert b[i] in multiset(a) && b[j] in multiset(a);
      var x :| 0 <= x < |a| && a[x] == b[i];
      var y :| 0 <= y < |a| && a[y] == b[j];
      if b[i] == b[j] {
        assert b == b[..j] + [b[j]] + b[j + 1..];
        assert b[i] in b[..j] by { assert b[..j][i] == b[i]; }
        assert multiset(b)[b[j]] >= 2;
        UmaVez(a, x);
        assert false;
      } else if x < y {
        assert ChaveGrupo(a[x]) != ChaveGrupo(a[y]);
      } else {
        assert x != y;
        assert ChaveGrupo(a[y]) != ChaveGrupo(a[x]);
      }
    }
  }

  // ---- the page ----

  /**
   * The report: an empty ledger shows a notice, no selected row shows a warning, otherwise
   * the groups of the selected rows, sorted by units.
   */
  function Relatorio(vendas: seq<LancamentoVenda>, variacoes: map<string, Variacao>, produtos: map<string, ProdutoPai>,
                     categorias: map<int, Categoria>, plataformas: set<string>, cats: set<int>, periodo: seq<int>): (r: Option<seq<Grupo>>)
    ensures r.None? <==> |vendas| == 0 || FiltrarTudo(Juntar(vendas, variacoes, produtos, categorias), plataformas, cats, periodo) == []
  {
    if |vendas| == 0 then None
    else
      var ls := FiltrarTudo(Juntar(vendas, variacoes, produtos, categorias), plataformas, cats, periodo);
      if ls == [] then None else Some(Ordenar(Agrupar(AnotarTodas(ls))))
  }

  /**
   * A report shown: groups sorted by units, largest first; one group per (group, category)
   * key of the selected rows and no other; each group's units and spend are the sums of
   * `quantidade * quantidadeKit` and `custoUnidade * quantidadeKit * quantidade` over the
   * selected rows with its key.
   */
  lemma RelatorioCorreto(vendas: seq<LancamentoVenda>, variacoes: map<string, Variacao>, produtos: map<string, ProdutoPai>,
                         categorias: map<int, Categoria>, plataformas: set<string>, cats: set<int>, periodo: seq<int>)
    requires Relatorio(vendas, variacoes, produtos, categorias, plataformas, cats, periodo).Some?
    ensures var gs := Relatorio(vendas, variacoes, produtos, categorias, plataformas, cats, periodo).value;
            var rs := AnotarTodas(FiltrarTudo(Juntar(vendas, variacoes, produtos, categorias), plataformas, cats, periodo));
            && |gs| > 0
            && NaoCrescente(gs)
            && AgrupamentoDe(gs, rs)
  {
    var ls := FiltrarTudo(Juntar(vendas, variacoes, produtos, categorias), plataformas, cats, periodo);
    var rs := AnotarTodas(ls);
    var a := Agrupar(rs);
    AgruparCorreto(rs);
    assert TemGrupo(a, ChaveDe(rs[0]));
    Reordenado(a, Ordenar(a), rs);
  }

  /** Sorting the groups keeps what the aggregation promises. */
  lemma Reordenado(a: seq<Grupo>, b: seq<Grupo>, rs: seq<LinhaRelatorio>)
    requires AgrupamentoDe(a, rs) && multiset(a) == multiset(b)
    ensures AgrupamentoDe(b, rs) && |b| == |a|
  {
    DistintasReordenadas(a, b);
    forall i | 0 <= i < |b| ensures && TemChave(rs, ChaveGrupo(b[i]))
                                    && b[i].unidadesVendidas == SomaUnidades(rs, ChaveGrupo(b[i]))
                                    && b[i].gastoTotal == SomaGasto(rs, ChaveGrupo(b[i])) {
      assert b[i] in multiset(a);
      var x :| 0 <= x < |a| && a[x] == b[i];
    }
    forall j | 0 <= j < |rs| ensures TemGrupo(b, ChaveDe(rs[j])) {
      assert TemGrupo(a, ChaveDe(rs[j]));
      var x :| 0 <= x < |a| && ChaveGrupo(a[x]) == ChaveDe(rs[j]);
      assert a[x] in multiset(b);
      var i :| 0 <= i < |b| && b[i] == a[x];
    }
    assert |b| == |multiset(b)| == |multiset(a)| == |a|;
  }
}
