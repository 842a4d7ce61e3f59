/**
 * pages/dashboard.py: the KPI totals of the joined and filtered ledger rows. Apart from the
 * order count, every total is a column sum.
 */
module Dashboard {
  import opened Wrappers
  import opened Schema
  import opened Consultas

  /** `Series.sum()` of a per-row amount; 0 for no rows. */
  function Soma(ls: seq<LinhaCompleta>, f: LinhaCompleta -> real): real {
    if |ls| == 0 then 0.0 else Soma(ls[..|ls| - 1], f) + f(ls[|ls| - 1])
  }

  /** A column sum splits over any split of its rows. */
  lemma {:induction false} SomaConcat(a: seq<LinhaCompleta>, b: seq<LinhaCompleta>, f: LinhaCompleta -> real)
    ensures Soma(a + b, f) == Soma(a, f) + Soma(b, f)
  {
    if |b| > 0 {
      var b' := b[..|b| - 1];
      assert (a + b)[..|a + b| - 1] == a + b';
      assert (a + b)[|a + b| - 1] == b[|b| - 1];
      SomaConcat(a, b', f);
    } else {
      assert a + b == a;
    }
  }

  /** `receitaBrutaProduto * quantidade`: a row's gross revenue. */
  function Receita(l: LinhaCompleta): real {
    l.venda.receitaBrutaProduto * (l.venda.quantidade as real)
  }

  /** `custoTotalCalculado * quantidade`: a row's product cost. */
  function CustoProduto(l: LinhaCompleta): real {
    l.venda.custoTotalCalculado * (l.venda.quantidade as real)
  }

  function Taxas(l: LinhaCompleta): real { l.venda.taxasMarketplace }

  function Cupons(l: LinhaCompleta): real { l.venda.totalCupons }

  /** The profit as stored in the ledger row, not recomputed. */
  function Lucro(l: LinhaCompleta): real { l.venda.lucroLiquidoReal }

  /** The four metrics the page shows, with the three parts of the spend. */
  datatype Indicadores = Indicadores(
    receitaBruta: real,
    custoProdutos: real,
    taxas: real,
    cupons: real,
    gastoTotal: real,
    lucroLiquido: real,
    totalPedidos: nat)

  /**
   * The KPIs of some rows:
   * - the spend is product cost plus fees plus coupons;
   * - the order count is the number of distinct order ids, at most the number of rows.
   */
  function Calcular(ls: seq<LinhaCompleta>): (k: Indicadores)
    ensures k.gastoTotal == k.custoProdutos + k.taxas + k.cupons
    ensures k.totalPedidos == |PedidoIds(VendasDe(ls))| && k.totalPedidos <= |ls|
  {
    var custo := Soma(ls, CustoProduto);
    var taxas := Soma(ls, Taxas);
    var cupons := Soma(ls, Cupons);
    DistinctOrdersVsItems(VendasDe(ls));
    Indicadores(Soma(ls, Receita), custo, taxas, cupons, custo + taxas + cupons, Soma(ls, Lucro), |PedidoIds(VendasDe(ls))|)
  }

  /** Every row's stored profit is its revenue less its product cost, fees and coupons. */
  predicate LucrosConsistentes(ls: seq<LinhaCompleta>) {
    forall i :: 0 <= i < |ls| ==> LucroConsistente(ls[i].venda)
  }

  /**
   * When every stored profit agrees with the row's other fields, the profit shown equals
   * the gross revenue less the total spend, although the page sums the stored column.
   */
  lemma {:induction false} LucroIgualReceitaMenosGasto(ls: seq<LinhaCompleta>)
    requires LucrosConsistentes(ls)
    ensures Soma(ls, Lucro) == Soma(ls, Receita) - (Soma(ls, CustoProduto) + Soma(ls, Taxas) + Soma(ls, Cupons))
  {
    if |ls| > 0 {
      var p := ls[..|ls| - 1];
      assert LucrosConsistentes(p) by {
        forall i | 0 <= i < |p| ensures LucroConsistente(p[i].venda) {
          assert p[i] == ls[i];
        }
      }
      LucroIgualReceitaMenosGasto(p);
      assert LucroConsistente(ls[|ls| - 1].venda);
    }
  }

  /** The KPIs' profit then equals revenue minus spend. */
  lemma LucroDoPainel(ls: seq<LinhaCompleta>)
    requires LucrosConsistentes(ls)
    ensures Calcular(ls).lucroLiquido == Calcular(ls).receitaBruta - Calcular(ls).gastoTotal
  {
    LucroIgualReceitaMenosGasto(ls);
  }

  /**
   * The dashboard: an empty ledger shows a notice, the joins then the filters select rows,
   * no selected row shows a warning, otherwise the KPIs of the selected rows.
   */
  function Painel(vendas: seq<LancamentoVenda>, variacoes: map<string, Variacao>, produtos: map<string, ProdutoPai>,
                  categorias: map<int, Categoria>, plataformas: set<string>, cats: set<int>, periodo: seq<int>): (r: Option<Indicadores>)
    ensures r.None? <==> |vendas| == 0 || FiltrarTudo(Juntar(vendas, variacoes, produtos, categorias), plataformas, cats, periodo) == []
  {
    if |vendas| == 0 then None
    else
      var ls := FiltrarTudo(Juntar(vendas, variacoes, produtos, categorias), plataformas, cats, periodo);
      if ls == [] then None else Some(Calcular(ls))
  }

  /**
   * Over a ledger that keeps `pedidoId` unique, "total orders" is the number of selected
   * rows: every selected row is a ledger row that joined and meets every active filter.
   */
  lemma PedidosDoPainel(vendas: seq<LancamentoVenda>, variacoes: map<string, Variacao>, produtos: map<string, ProdutoPai>,
                        categorias: map<int, Categoria>, plataformas: set<string>, cats: set<int>, periodo: seq<int>)
    requires PedidosUnicos(vendas)
    requires Painel(vendas, variacoes, produtos, categorias, plataformas, cats, periodo).Some?
    ensures var ls := FiltrarTudo(Juntar(vendas, variacoes, produtos, categorias), plataformas, cats, periodo);
            && Painel(vendas, variacoes, produtos, categorias, plataformas, cats, periodo).value.totalPedidos == |ls|
            && forall l :: l in ls ==> l.venda in vendas && Selecionada(l, plataformas, cats, periodo)
  {
    var js := Juntar(vendas, variacoes, produtos, categorias);
    var ls := FiltrarTudo(js, plataformas, cats, periodo);
    JuntarPreservaUnicos(vendas, variacoes, produtos, categorias);
    FiltrosCombinados(js, plataformas, cats, periodo);
    DistinctOrdersVsItems(VendasDe(ls));
    forall l | l in ls ensures l.venda in vendas {
      var i :| 0 <= i < |vendas| && Enriquecer(vendas[i], variacoes, produtos, categorias) == Some(l);
    }
  }
}
