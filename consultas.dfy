/**
 * What the dashboard and the reports page share: the three inner joins of the ledger with
 * the catalog (sale -> variation -> parent product -> category) and the sidebar filters
 * (platform, category, period), applied one after the other.
 */
module Consultas {
  import opened Wrappers
  import opened Schema

  /** One row of the joined frame: a ledger row with the catalog rows it matched. */
  datatype LinhaCompleta = LinhaCompleta(venda: LancamentoVenda, variacao: Variacao, produto: ProdutoPai, categoria: Categoria)

  /**
   * The equality conditions of the three merges: `skuVenda == skuVariacao`, equal
   * `idProdutoPai`, and `categoria_id == id`. A null link never equals a key.
   */
  predicate Casa(r: LancamentoVenda, v: Variacao, p: ProdutoPai, c: Categoria) {
    && v.skuVariacao == r.skuVenda
    && v.idProdutoPai == Some(p.idProdutoPai)
    && p.categoriaId == Some(c.id)
  }

  /**
   * The joined row of one ledger row, found through the tables' keys; None when the SKU has
   * no variation, the variation no parent product, or the product no category.
   */
  function Enriquecer(r: LancamentoVenda, variacoes: map<string, Variacao>, produtos: map<string, ProdutoPai>,
                      categorias: map<int, Categoria>): (o: Option<LinhaCompleta>)
    ensures o.Some? ==> o.value.venda == r
  {
    if r.skuVenda !in variacoes then None
    else
      var v := variacoes[r.skuVenda];
      if v.idProdutoPai.None? || v.idProdutoPai.value !in produtos then None
      else
        var p := produtos[v.idProdutoPai.value];
        if p.categoriaId.None? || p.categoriaId.value !in categorias then None
        else Some(LinhaCompleta(r, v, p, categorias[p.categoriaId.value]))
  }

  /** A joined row found by key satisfies the three join conditions. */
  lemma EnriquecerCasa(r: LancamentoVenda, variacoes: map<string, Variacao>, produtos: map<string, ProdutoPai>,
                       categorias: map<int, Categoria>)
    requires VariacoesKeyed(variacoes) && ProdutosKeyed(produtos) && CategoriasKeyed(categorias)
    requires Enriquecer(r, variacoes, produtos, categorias).Some?
    ensures var l := Enriquecer(r, variacoes, produtos, categorias).value;
            Casa(r, l.variacao, l.produto, l.categoria)
  {
    var l := Enriquecer(r, variacoes, produtos, categorias).value;
    assert l.variacao == variacoes[r.skuVenda];
    assert l.produto == produtos[l.variacao.idProdutoPai.value];
    var k := l.produto.categoriaId.value;
    assert k in categorias && l.categoria == categorias[k];
    assert categorias[k].id == k;
  }

  /**
   * Looking the rows up by key is the merge: over keyed tables, a ledger row is kept exactly
   * when some variation, product and category rows satisfy the three join conditions, and
   * then those rows are the only match, so the merge yields one row per kept ledger row.
   */
  lemma JuncaoPorChave(r: LancamentoVenda, variacoes: map<string, Variacao>, produtos: map<string, ProdutoPai>,
                       categorias: map<int, Categoria>)
    requires VariacoesKeyed(variacoes) && ProdutosKeyed(produtos) && CategoriasKeyed(categorias)
    ensures var o := Enriquecer(r, variacoes, produtos, categorias);
            && (o.Some? ==> Casa(r, o.value.variacao, o.value.produto, o.value.categoria))
            && (o.Some? ==> && r.skuVenda in variacoes && o.value.variacao == variacoes[r.skuVenda]
                            && o.value.produto in produtos.Values && o.value.categoria in categorias.Values)
            && (forall kv, kp, kc :: kv in variacoes && kp in produtos && kc in categorias
                  && Casa(r, variacoes[kv], produtos[kp], categorias[kc])
                  ==> o == Some(LinhaCompleta(r, variacoes[kv], produtos[kp], categorias[kc])))
  {
    if Enriquecer(r, variacoes, produtos, categorias).Some? {
      EnriquecerCasa(r, variacoes, produtos, categorias);
    }
  }

  /** The ledger rows behind some joined rows, in order. */
  function VendasDe(ls: seq<LinhaCompleta>): (r: seq<LancamentoVenda>)
    ensures |r| == |ls| && forall i :: 0 <= i < |ls| ==> r[i] == ls[i].venda
  {
    seq(|ls|, i requires 0 <= i < |ls| => ls[i].venda)
  }

  lemma VendasDeAcrescentar(ls: seq<LinhaCompleta>, l: LinhaCompleta)
    ensures VendasDe(ls + [l]) == VendasDe(ls) + [l.venda]
  {
  }

  lemma VendasDePrefixo(ls: seq<LinhaCompleta>)
    requires |ls| > 0
    ensures VendasDe(ls[..|ls| - 1]) == VendasDe(ls)[..|ls| - 1]
  {
  }

  /** The inner joins: the ledger rows that match, in ledger order, each with its catalog rows. */
  function Juntar(vendas: seq<LancamentoVenda>, variacoes: map<string, Variacao>, produtos: map<string, ProdutoPai>,
                  categorias: map<int, Categoria>): (ls: seq<LinhaCompleta>)
    ensures |ls| <= |vendas|
    ensures forall l :: l in ls <==> exists i :: 0 <= i < |vendas| && Enriquecer(vendas[i], variacoes, produtos, categorias) == Some(l)
  {
    if |vendas| == 0 then []
    else
      var p := vendas[..|vendas| - 1];
      var x := vendas[|vendas| - 1];
      var ls := Juntar(p, variacoes, produtos, categorias);
      assert forall i :: 0 <= i < |p| ==> vendas[i] == p[i];
      match Enriquecer(x, variacoes, produtos, categorias)
      case None => ls
      case Some(l) => ls + [l]
  }

  /** A ledger row whose SKU, parent product or category is missing appears in no joined row. */
  lemma JuntarDescarta(vendas: seq<LancamentoVenda>, variacoes: map<string, Variacao>,
                                          produtos: map<string, ProdutoPai>, categorias: map<int, Categoria>, r: LancamentoVenda)
    requires Enriquecer(r, variacoes, produtos, categorias).None?
    ensures forall l :: l in Juntar(vendas, variacoes, produtos, categorias) ==> l.venda != r
  {
  }

  /** Every ledger row that matches is kept, with its own catalog rows. */
  lemma JuntarMantem(vendas: seq<LancamentoVenda>, variacoes: map<string, Variacao>,
                     produtos: map<string, ProdutoPai>, categorias: map<int, Categoria>, i: nat)
    requires i < |vendas| && Enriquecer(vendas[i], variacoes, produtos, categorias).Some?
    ensures Enriquecer(vendas[i], variacoes, produtos, categorias).value in Juntar(vendas, variacoes, produtos, categorias)
  {
  }

  /** The joins never repeat a ledger row: unique order ids in the ledger stay unique after them. */
  lemma {:induction false} JuntarPreservaUnicos(vendas: seq<LancamentoVenda>, variacoes: map<string, Variacao>,
                                                produtos: map<string, ProdutoPai>, categorias: map<int, Categoria>)
    requires PedidosUnicos(vendas)
    ensures PedidosUnicos(VendasDe(Juntar(vendas, variacoes, produtos, categorias)))
    ensures PedidoIds(VendasDe(Juntar(vendas, variacoes, produtos, categorias))) <= PedidoIds(vendas)
  {
    if |vendas| > 0 {
      var p := vendas[..|vendas| - 1];
      var x := vendas[|vendas| - 1];
      UltimoNovo(vendas);
      JuntarPreservaUnicos(p, variacoes, produtos, categorias);
      var a := VendasDe(Juntar(p, variacoes, produtos, categorias));
      match Enriquecer(x, variacoes, produtos, categorias)
      case None =>
      case Some(l) =>
        VendasDeAcrescentar(Juntar(p, variacoes, produtos, categorias), l);
        AcrescentarNovo(a, x);
    }
  }

  // ---- the sidebar filters ----

  /** `frame[mask]`: the rows that satisfy `keep`, in their order. */
  function Filtrar(ls: seq<LinhaCompleta>, keep: LinhaCompleta -> bool): (r: seq<LinhaCompleta>)
    ensures |r| <= |ls|
    ensures forall l :: l in r <==> l in ls && keep(l)
  {
    if |ls| == 0 then []
    else
      var p := ls[..|ls| - 1];
      var x := ls[|ls| - 1];
      assert ls == p + [x];
      if keep(x) then Filtrar(p, keep) + [x] else Filtrar(p, keep)
  }

  /** A row mask never repeats a row, so unique order ids stay unique. */
  lemma {:induction false} FiltrarPreservaUnicos(ls: seq<LinhaCompleta>, keep: LinhaCompleta -> bool)
    requires PedidosUnicos(VendasDe(ls))
    ensures PedidosUnicos(VendasDe(Filtrar(ls, keep)))
    ensures PedidoIds(VendasDe(Filtrar(ls, keep))) <= PedidoIds(VendasDe(ls))
  {
    if |ls| > 0 {
      var p := ls[..|ls| - 1];
      var x := ls[|ls| - 1];
      var vs := VendasDe(ls);
      VendasDePrefixo(ls);
      UltimoNovo(vs);
      FiltrarPreservaUnicos(p, keep);
      if keep(x) {
        var a := VendasDe(Filtrar(p, keep));
        VendasDeAcrescentar(Filtrar(p, keep), x);
        AcrescentarNovo(a, x.venda);
      }
    }
  }

  /** The platform multiselect: nothing selected keeps every row, otherwise `plataforma.isin(sel)`. */
  function FiltrarPlataforma(ls: seq<LinhaCompleta>, sel: set<string>): (r: seq<LinhaCompleta>)
    ensures |r| <= |ls|
    ensures sel == {} ==> r == ls
    ensures sel != {} ==> forall l :: l in r <==> l in ls && l.venda.plataforma in sel
  {
    if sel == {} then ls else Filtrar(ls, (l: LinhaCompleta) => l.venda.plataforma in sel)
  }

  /** A parent product's category id as a selectable value (a null id matches no selection). */
  predicate NaCategoria(l: LinhaCompleta, sel: set<int>) {
    l.produto.categoriaId.Some? && l.produto.categoriaId.value in sel
  }

  /** The category multiselect: nothing selected keeps every row, otherwise `categoria_id.isin(sel)`. */
  function FiltrarCategoria(ls: seq<LinhaCompleta>, sel: set<int>): (r: seq<LinhaCompleta>)
    ensures |r| <= |ls|
    ensures sel == {} ==> r == ls
    ensures sel != {} ==> forall l :: l in r <==> l in ls && NaCategoria(l, sel)
  {
    if sel == {} then ls else Filtrar(ls, (l: LinhaCompleta) => NaCategoria(l, sel))
  }

  /** The day of an order lies in the closed range `[inicio, fim]`. */
  predicate NoPeriodo(l: LinhaCompleta, inicio: int, fim: int) {
    inicio <= l.venda.dataPedido.day <= fim
  }

  /**
   * The date input yields one or two days; only a pair filters, and both ends are included.
   */
  function FiltrarPeriodo(ls: seq<LinhaCompleta>, periodo: seq<int>): (r: seq<LinhaCompleta>)
    ensures |r| <= |ls|
    ensures |periodo| != 2 ==> r == ls
    ensures |periodo| == 2 ==> forall l :: l in r <==> l in ls && NoPeriodo(l, periodo[0], periodo[1])
  {
    if |periodo| == 2 then Filtrar(ls, (l: LinhaCompleta) => NoPeriodo(l, periodo[0], periodo[1])) else ls
  }

  /** The three filters applied in the page's order: platform, category, period. */
  function FiltrarTudo(ls: seq<LinhaCompleta>, plataformas: set<string>, cats: set<int>, periodo: seq<int>): seq<LinhaCompleta> {
    FiltrarPeriodo(FiltrarCategoria(FiltrarPlataforma(ls, plataformas), cats), periodo)
  }

  /** The criterion the three filters amount to together. */
  predicate Selecionada(l: LinhaCompleta, plataformas: set<string>, cats: set<int>, periodo: seq<int>) {
    && (plataformas == {} || l.venda.plataforma in plataformas)
    && (cats == {} || NaCategoria(l, cats))
    && (|periodo| != 2 || NoPeriodo(l, periodo[0], periodo[1]))
  }

  /**
   * The filtered rows are exactly the rows meeting every active criterion, no row appears
   * more often than before, and unique order ids stay unique.
   */
  lemma FiltrosCombinados(ls: seq<LinhaCompleta>, plataformas: set<string>, cats: set<int>, periodo: seq<int>)
    ensures forall l :: l in FiltrarTudo(ls, plataformas, cats, periodo) <==> l in ls && Selecionada(l, plataformas, cats, periodo)
    ensures |FiltrarTudo(ls, plataformas, cats, periodo)| <= |ls|
    ensures PedidosUnicos(VendasDe(ls)) ==> PedidosUnicos(VendasDe(FiltrarTudo(ls, plataformas, cats, periodo)))
  {
    if PedidosUnicos(VendasDe(ls)) {
      var a := FiltrarPlataforma(ls, plataformas);
      if plataformas != {} { FiltrarPreservaUnicos(ls, (l: LinhaCompleta) => l.venda.plataforma in plataformas); }
      var b := FiltrarCategoria(a, cats);
      if cats != {} { FiltrarPreservaUnicos(a, (l: LinhaCompleta) => NaCategoria(l, cats)); }
      if |periodo| == 2 { FiltrarPreservaUnicos(b, (l: LinhaCompleta) => NoPeriodo(l, periodo[0], periodo[1])); }
    }
  }
}
