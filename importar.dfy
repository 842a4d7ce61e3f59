/**
 * pages/importarVendas.py, lines 65-90 and 121-133: the reconciliation of the prepared
 * rows against the stored order ids and the catalog, the construction of the ledger rows,
 * the single commit, and the registration of a missing SKU.
 */
module ImportarVendas {
  import opened Wrappers
  import opened Schema
  import opened CostResolver
  import opened Frames
  import opened Normalizacao
  import opened Ledger
  import opened Cadastros

  /** `str(venda.get('pedidoId'))`: a missing column prints as "None", an empty cell as "nan". */
  function Chave(c: Campo): (k: string)
    ensures c.Str? ==> k == c.s
  {
    match c
    case Ausente => "None"
    case Nan => "nan"
    case Str(s) => s
  }

  /** What the loop reads besides the rows: the order-id snapshot (line 66) and the catalog. */
  datatype Contexto = Contexto(existentes: set<string>, variacoes: map<string, Variacao>, produtos: map<string, ProdutoPai>)

  /**
   * Line 71: `calcular_custo_pelo_produto_pai(db, sku)` on the raw cell. Only a text cell can
   * equal a stored SKU; a missing column (None) or an empty cell (NaN) matches no variation.
   */
  function CustoDaVenda(v: Venda, ctx: Contexto): (r: Option<real>)
    ensures r.Some? ==> v.skuVenda.Str?
    ensures v.skuVenda.Str? ==> r == CalcularCusto(ctx.variacoes, ctx.produtos, v.skuVenda.s)
  {
    if v.skuVenda.Str? then CalcularCusto(ctx.variacoes, ctx.produtos, v.skuVenda.s) else None
  }

  /** Line 70: the row's order id is already stored. */
  predicate Duplicada(v: Venda, ctx: Contexto) {
    Chave(v.pedidoId) in ctx.existentes
  }

  /** Line 72: a new row whose SKU has a cost. */
  predicate Resolvida(v: Venda, ctx: Contexto) {
    !Duplicada(v, ctx) && CustoDaVenda(v, ctx).Some?
  }

  /** Line 72-73: a new row whose SKU has no cost. */
  predicate Pendente(v: Venda, ctx: Contexto) {
    !Duplicada(v, ctx) && CustoDaVenda(v, ctx).None?
  }

  /** Python truth of the SKU cell (line 73): None and "" are false, NaN is true. */
  predicate SkuVerdadeiro(c: Campo) {
    c.Nan? || (c.Str? && c.s != "")
  }

  /** A row that puts its SKU on the missing-SKU list, unless already there. */
  predicate Listavel(v: Venda, ctx: Contexto) {
    Pendente(v, ctx) && SkuVerdadeiro(v.skuVenda)
  }

  predicate SemRepeticao<T(==)>(s: seq<T>) {
    forall i, j :: 0 <= i < j < |s| ==> s[i] != s[j]
  }

  // ---- what the loop at lines 68-73 produces, defined row by row ----

  /** `novos_lancamentos`: the resolved rows, in file order. */
  function Resolvidas(vs: seq<Venda>, ctx: Contexto): (r: seq<Venda>)
    ensures |r| <= |vs|
    ensures forall v :: v in r <==> v in vs && Resolvida(v, ctx)
  {
    if |vs| == 0 then []
    else
      var p := vs[..|vs| - 1];
      var v := vs[|vs| - 1];
      assert vs == p + [v];
      if Resolvida(v, ctx) then Resolvidas(p, ctx) + [v] else Resolvidas(p, ctx)
  }

  /** `vendas_duplicadas`. */
  function ContaDuplicadas(vs: seq<Venda>, ctx: Contexto): (n: nat)
    ensures n <= |vs|
  {
    if |vs| == 0 then 0
    else ContaDuplicadas(vs[..|vs| - 1], ctx) + (if Duplicada(vs[|vs| - 1], ctx) then 1 else 0)
  }

  /** The number of new rows whose SKU has no cost. */
  function ContaPendentes(vs: seq<Venda>, ctx: Contexto): (n: nat)
    ensures n <= |vs|
  {
    if |vs| == 0 then 0
    else ContaPendentes(vs[..|vs| - 1], ctx) + (if Pendente(vs[|vs| - 1], ctx) then 1 else 0)
  }

  /** `skus_nao_encontrados`: each listable SKU at its first listable row. */
  function Pendentes(vs: seq<Venda>, ctx: Contexto): (r: seq<Campo>)
    ensures SemRepeticao(r)
    ensures forall c :: c in r ==> SkuVerdadeiro(c)
  {
    if |vs| == 0 then []
    else
      var p := Pendentes(vs[..|vs| - 1], ctx);
      var v := vs[|vs| - 1];
      if Listavel(v, ctx) && v.skuVenda !in p then p + [v.skuVenda] else p
  }

  /** The loop at lines 65-73. */
  method Reconciliar(vs: seq<Venda>, ctx: Contexto) returns (novos: seq<Venda>, skus: seq<Campo>, duplicadas: nat)
    ensures novos == Resolvidas(vs, ctx)
    ensures skus == Pendentes(vs, ctx)
    ensures duplicadas == ContaDuplicadas(vs, ctx)
  {
    novos, skus, duplicadas := [], [], 0;
    for k := 0 to |vs|
      invariant novos == Resolvidas(vs[..k], ctx)
      invariant skus == Pendentes(vs[..k], ctx)
      invariant duplicadas == ContaDuplicadas(vs[..k], ctx)
    {
      assert vs[..k + 1][..k] == vs[..k];
      var v := vs[k];
      if Chave(v.pedidoId) in ctx.existentes {
        duplicadas := duplicadas + 1;
        continue;
      }
      var custo := CustoDaVenda(v, ctx);
      if custo.Some? {
        novos := novos + [v];
      } else if SkuVerdadeiro(v.skuVenda) && v.skuVenda !in skus {
        skus := skus + [v.skuVenda];
      }
    }
    assert vs[..|vs|] == vs;
  }

  // ---- properties of the reconciliation ----

  /** Every row is a duplicate, resolved, or unresolved, and exactly one of them. */
  lemma {:induction false} Conservacao(vs: seq<Venda>, ctx: Contexto)
    ensures ContaDuplicadas(vs, ctx) + |Resolvidas(vs, ctx)| + ContaPendentes(vs, ctx) == |vs|
  {
    if |vs| > 0 {
      Conservacao(vs[..|vs| - 1], ctx);
    }
  }

  /** Some row of `vs` puts SKU `c` on the list. */
  predicate TemListavel(vs: seq<Venda>, ctx: Contexto, c: Campo) {
    exists k :: 0 <= k < |vs| && Listavel(vs[k], ctx) && vs[k].skuVenda == c
  }

  /**
   * The list holds exactly the SKUs of the unresolved new rows whose SKU is set:
   * duplicates, resolved rows, and rows without a SKU contribute nothing.
   */
  lemma {:induction false} PendentesExatos(vs: seq<Venda>, ctx: Contexto, c: Campo)
    ensures c in Pendentes(vs, ctx) <==> TemListavel(vs, ctx, c)
  {
    if |vs| > 0 {
      var p := vs[..|vs| - 1];
      var v := vs[|vs| - 1];
      PendentesExatos(p, ctx, c);
      assert c in Pendentes(vs, ctx) <==> c in Pendentes(p, ctx) || (Listavel(v, ctx) && v.skuVenda == c);
      if TemListavel(p, ctx, c) {
        var k :| 0 <= k < |p| && Listavel(p[k], ctx) && p[k].skuVenda == c;
        assert vs[k] == p[k];
      }
      if TemListavel(vs, ctx, c) {
        var k :| 0 <= k < |vs| && Listavel(vs[k], ctx) && vs[k].skuVenda == c;
        if k < |p| {
          assert p[k] == vs[k];
        }
      }
    }
  }

  /**
   * Reading more rows only appends to the list: the list after any prefix of the file is a
   * prefix of the final list, so SKUs appear in the order of their first unresolved row.
   */
  lemma {:induction false} PendentesPrefixo(vs: seq<Venda>, ctx: Contexto, k: nat)
    requires k <= |vs|
    ensures Pendentes(vs[..k], ctx) <= Pendentes(vs, ctx)
  {
    if k < |vs| {
      var p := vs[..|vs| - 1];
      assert p[..k] == vs[..k];
      PendentesPrefixo(p, ctx, k);
    } else {
      assert vs[..k] == vs;
    }
  }

  /** Every resolved row is new and has a cost. */
  lemma ResolvidasSaoNovas(vs: seq<Venda>, ctx: Contexto, i: nat)
    requires i < |Resolvidas(vs, ctx)|
    ensures var v := Resolvidas(vs, ctx)[i];
            v in vs && Chave(v.pedidoId) !in ctx.existentes && v.skuVenda.Str?
            && CalcularCusto(ctx.variacoes, ctx.produtos, v.skuVenda.s).Some?
  {
    assert Resolvidas(vs, ctx)[i] in Resolvidas(vs, ctx);
  }

  // ---- building the ledger rows (lines 75-84) ----

  /** Why an import writes nothing (the broad `except` at line 93). */
  datatype ErroImportacao =
    | ColunaAusente(coluna: string)    // KeyError on `venda[col]`
    | ValorNulo(coluna: string)        // NOT NULL IntegrityError on commit (NaN id, NaT date)
    | DataInvalida(valor: string)      // `pd.to_datetime` raises
    | PedidoRepetido                   // UNIQUE IntegrityError on `pedidoId`
    | ArgumentoInvalido(nome: string)  // TypeError of the declarative constructor

  /** Python's `int()` of a float: truncation toward zero. */
  function TruncToInt(x: real): (n: int)
    ensures 0.0 <= x ==> n as real <= x < n as real + 1.0
    ensures x < 0.0 ==> n as real - 1.0 < x <= n as real
  {
    if x >= 0.0 then x.Floor else -((-x).Floor)
  }

  /**
   * One `LancamentosVendas(...)` of line 84 for a resolved row whose kit costs `custo`.
   * The id's KeyError is raised first (line 83), then the date's; a NaN id or a NaT date is
   * only refused by the NOT NULL constraints.
   */
  function MontarLancamento(v: Venda, custo: real, plataforma: string, parseDate: string -> Option<Timestamp>)
    : (r: Result<LancamentoVenda, ErroImportacao>)
    requires v.skuVenda.Str?
    ensures r.Success? <==> v.pedidoId.Str? && v.dataPedido.Str? && parseDate(v.dataPedido.s).Some?
    ensures r.Failure? && v.pedidoId.Ausente? ==> r.error == ColunaAusente("pedidoId")
    ensures r.Success? ==>
              var l := r.value;
              var q := v.quantidade;
              && l.pedidoId == v.pedidoId.s && l.skuVenda == v.skuVenda.s && l.plataforma == plataforma
              && l.dataPedido == parseDate(v.dataPedido.s).value
              && l.quantidade == TruncToInt(q)
              && l.receitaBrutaProduto == v.receitaBrutaProduto
              && l.totalCupons == v.totalCupons && l.taxasMarketplace == v.taxasMarketplace
              && l.custoTotalCalculado == custo
              && l.valorVendaLiquido + v.totalCupons + v.taxasMarketplace == v.receitaBrutaProduto * q
              && l.lucroLiquidoReal + custo * q == l.valorVendaLiquido
  {
    var q := v.quantidade;
    var receitaBrutaTotal := v.receitaBrutaProduto * q;
    var custoTotalProdutos := custo * q;
    var valorVendaLiquido := receitaBrutaTotal - v.totalCupons - v.taxasMarketplace;
    var lucroLiquido := valorVendaLiquido - custoTotalProdutos;
    if v.pedidoId.Ausente? then Failure(ColunaAusente("pedidoId"))
    else if v.dataPedido.Ausente? then Failure(ColunaAusente("dataPedido"))
    else if v.dataPedido.Str? && parseDate(v.dataPedido.s).None? then Failure(DataInvalida(v.dataPedido.s))
    else if v.pedidoId.Nan? then Failure(ValorNulo("pedidoId"))
    else if v.dataPedido.Nan? then Failure(ValorNulo("dataPedido"))
    else Success(LancamentoVenda(v.pedidoId.s, parseDate(v.dataPedido.s).value, plataforma, v.skuVenda.s, TruncToInt(q),
                                 v.receitaBrutaProduto, v.totalCupons, v.taxasMarketplace,
                                 valorVendaLiquido, custo, lucroLiquido))
  }

  /** A stored row whose quantity was whole satisfies the dashboard's profit identity. */
  lemma LancamentoConsistente(v: Venda, custo: real, plataforma: string, parseDate: string -> Option<Timestamp>)
    requires v.skuVenda.Str?
    requires MontarLancamento(v, custo, plataforma, parseDate).Success?
    requires v.quantidade == TruncToInt(v.quantidade) as real
    ensures LucroConsistente(MontarLancamento(v, custo, plataforma, parseDate).value)
  {
  }

  /** The row built for a resolved sale, with the cost recomputed at line 78. */
  function Linha(v: Venda, ctx: Contexto, plataforma: string, parseDate: string -> Option<Timestamp>)
    : Result<LancamentoVenda, ErroImportacao>
    requires Resolvida(v, ctx)
  {
    MontarLancamento(v, CustoDaVenda(v, ctx).value, plataforma, parseDate)
  }

  /** `lancamentos_para_salvar`, or the first row's error. */
  function MontarTodos(novos: seq<Venda>, ctx: Contexto, plataforma: string, parseDate: string -> Option<Timestamp>)
    : (r: Result<seq<LancamentoVenda>, ErroImportacao>)
    requires forall v :: v in novos ==> Resolvida(v, ctx)
    ensures r.Success? <==> forall i :: 0 <= i < |novos| ==> Linha(novos[i], ctx, plataforma, parseDate).Success?
    ensures r.Success? ==>
              && |r.value| == |novos|
              && forall i :: 0 <= i < |novos| ==> Linha(novos[i], ctx, plataforma, parseDate) == Success(r.value[i])
  {
    if |novos| == 0 then Success([])
    else
      var p := novos[..|novos| - 1];
      var v := novos[|novos| - 1];
      assert forall i :: 0 <= i < |p| ==> p[i] == novos[i];
      match MontarTodos(p, ctx, plataforma, parseDate)
      case Failure(e) => Failure(e)
      case Success(l) =>
        match Linha(v, ctx, plataforma, parseDate)
        case Failure(e) => Failure(e)
        case Success(x) => Success(l + [x])
  }

  /** Once a prefix of the batch fails, the whole batch fails with that prefix's error. */
  lemma {:induction false} MontarTodosFalhaPrefixo(novos: seq<Venda>, k: nat, ctx: Contexto, plataforma: string,
                                                   parseDate: string -> Option<Timestamp>)
    requires forall v :: v in novos ==> Resolvida(v, ctx)
    requires k <= |novos|
    requires MontarTodos(novos[..k], ctx, plataforma, parseDate).Failure?
    ensures MontarTodos(novos, ctx, plataforma, parseDate) == MontarTodos(novos[..k], ctx, plataforma, parseDate)
  {
    if k < |novos| {
      var p := novos[..|novos| - 1];
      assert p[..k] == novos[..k];
      MontarTodosFalhaPrefixo(p, k, ctx, plataforma, parseDate);
    } else {
      assert novos[..k] == novos;
    }
  }

  /** One more row: the batch grows by that row's entry, or fails with its error. */
  lemma MontarTodosPasso(novos: seq<Venda>, k: nat, ctx: Contexto, plataforma: string,
                         parseDate: string -> Option<Timestamp>)
    requires forall v :: v in novos ==> Resolvida(v, ctx)
    requires k < |novos| && MontarTodos(novos[..k], ctx, plataforma, parseDate).Success?
    ensures novos[k] in novos
    ensures MontarTodos(novos[..k + 1], ctx, plataforma, parseDate) ==
              match Linha(novos[k], ctx, plataforma, parseDate)
              case Failure(e) => Failure(e)
              case Success(x) => Success(MontarTodos(novos[..k], ctx, plataforma, parseDate).value + [x])
  {
    assert novos[..k + 1][..k] == novos[..k];
  }

  /**
   * One pass of the loop at lines 75-84: the row's entry extends the batch and its order id
   * joins `pedidos_unicos`, or the row's error is the whole batch's error.
   */
  lemma PassoLote(novos: seq<Venda>, k: nat, ctx: Contexto, plataforma: string,
                  parseDate: string -> Option<Timestamp>, lote: seq<LancamentoVenda>)
    requires forall v :: v in novos ==> Resolvida(v, ctx)
    requires k < |novos| && MontarTodos(novos[..k], ctx, plataforma, parseDate) == Success(lote)
    ensures novos[k] in novos
    ensures var linha := Linha(novos[k], ctx, plataforma, parseDate);
            && (linha.Failure? ==> MontarTodos(novos, ctx, plataforma, parseDate) == Failure(linha.error))
            && (linha.Success? ==> MontarTodos(novos[..k + 1], ctx, plataforma, parseDate) == Success(lote + [linha.value]))
            && (linha.Success? ==> PedidoIds(lote + [linha.value]) == PedidoIds(lote) + {linha.value.pedidoId})
  {
    MontarTodosPasso(novos, k, ctx, plataforma, parseDate);
    var linha := Linha(novos[k], ctx, plataforma, parseDate);
    if linha.Failure? {
      MontarTodosFalhaPrefixo(novos, k + 1, ctx, plataforma, parseDate);
    } else {
      PedidoIdsAcrescentar(lote, linha.value);
    }
  }

  /** The loop at lines 75-84 with `pedidos_unicos`. */
  method MontarLote(novos: seq<Venda>, ctx: Contexto, plataforma: string, parseDate: string -> Option<Timestamp>)
    returns (r: Result<seq<LancamentoVenda>, ErroImportacao>, pedidos: set<string>)
    requires forall v :: v in novos ==> Resolvida(v, ctx)
    ensures r == MontarTodos(novos, ctx, plataforma, parseDate)
    ensures r.Success? ==> pedidos == PedidoIds(r.value)
  {
    var lote: seq<LancamentoVenda> := [];
    pedidos := {};
    for k := 0 to |novos|
      invariant MontarTodos(novos[..k], ctx, plataforma, parseDate) == Success(lote)
      invariant pedidos == PedidoIds(lote)
    {
      PassoLote(novos, k, ctx, plataforma, parseDate, lote);
      var v := novos[k];
      var custo := CustoDaVenda(v, ctx).value;
      var linha := MontarLancamento(v, custo, plataforma, parseDate);
      if linha.Failure? {
        r := Failure(linha.error);
        return;
      }
      lote := lote + [linha.value];
      pedidos := pedidos + {linha.value.pedidoId};
    }
    assert novos[..|novos|] == novos;
    r := Success(lote);
  }

  // ---- the whole import (lines 65-90) ----

  /** What the success message (line 88) and the info message (line 89) report. */
  datatype Relatorio = Relatorio(pedidos: nat, itens: nat, duplicadas: nat)

  datatype Resultado = Resultado(lote: seq<LancamentoVenda>, relatorio: Relatorio, pendentes: seq<Campo>)

  function ContextoDe(existentes: seq<LancamentoVenda>, variacoes: map<string, Variacao>, produtos: map<string, ProdutoPai>): Contexto {
    Contexto(PedidoIds(existentes), variacoes, produtos)
  }

  /**
   * The "Processar Vendas" action on prepared rows `vs` against the stored rows and the
   * catalog: the rows written, the report, and the missing-SKU list; or the error that
   * leaves the ledger untouched. No commit happens when no row resolves.
   */
  function Importar(vs: seq<Venda>, existentes: seq<LancamentoVenda>, variacoes: map<string, Variacao>,
                    produtos: map<string, ProdutoPai>, plataforma: string, parseDate: string -> Option<Timestamp>)
    : Result<Resultado, ErroImportacao>
  {
    var ctx := ContextoDe(existentes, variacoes, produtos);
    match MontarTodos(Resolvidas(vs, ctx), ctx, plataforma, parseDate)
    case Failure(e) => Failure(e)
    case Success(lote) =>
      if |lote| > 0 && !AceitaLote(existentes, lote) then Failure(PedidoRepetido)
      else Success(Resultado(lote, Relatorio(|PedidoIds(lote)|, |lote|, ContaDuplicadas(vs, ctx)), Pendentes(vs, ctx)))
  }

  /**
   * A successful import writes one row per resolved sale, each under a fresh order id and
   * the selected platform, keeps the ledger's order ids unique, reports as many orders as
   * items, and accounts for every row of the file.
   */
  lemma {:induction false} ImportarSucesso(vs: seq<Venda>, existentes: seq<LancamentoVenda>, variacoes: map<string, Variacao>,
                                           produtos: map<string, ProdutoPai>, plataforma: string,
                                           parseDate: string -> Option<Timestamp>)
    requires PedidosUnicos(existentes)
    requires Importar(vs, existentes, variacoes, produtos, plataforma, parseDate).Success?
    ensures var ctx := ContextoDe(existentes, variacoes, produtos);
            var res := Importar(vs, existentes, variacoes, produtos, plataforma, parseDate).value;
            && |res.lote| == |Resolvidas(vs, ctx)|
            && (forall r :: r in res.lote ==> r.plataforma == plataforma && r.pedidoId !in PedidoIds(existentes))
            && PedidosUnicos(existentes + res.lote)
            && res.relatorio.pedidos == res.relatorio.itens == |res.lote|
            && res.relatorio.duplicadas + res.relatorio.itens + ContaPendentes(vs, ctx) == |vs|
  {
    var ctx := ContextoDe(existentes, variacoes, produtos);
    var novos := Resolvidas(vs, ctx);
    var lote := MontarTodos(novos, ctx, plataforma, parseDate).value;
    forall r | r in lote ensures r.plataforma == plataforma && r.pedidoId !in PedidoIds(existentes) {
      var i :| 0 <= i < |lote| && lote[i] == r;
      ResolvidasSaoNovas(vs, ctx, i);
    }
    if |lote| == 0 {
      assert existentes + lote == existentes;
    } else {
      AceitoPedidosIgualItens(existentes, lote);
    }
    DistinctOrdersVsItems(lote);
    Conservacao(vs, ctx);
  }

  /**
   * Two resolved items of the same order (or an id repeated in the file) make the whole
   * import fail: the UNIQUE `pedidoId` refuses the batch, so no item of it is saved.
   */
  lemma MultiItemFalha(vs: seq<Venda>, existentes: seq<LancamentoVenda>, variacoes: map<string, Variacao>,
                       produtos: map<string, ProdutoPai>, plataforma: string, parseDate: string -> Option<Timestamp>,
                       i: nat, j: nat)
    requires var novos := Resolvidas(vs, ContextoDe(existentes, variacoes, produtos));
             i < j < |novos| && novos[i].pedidoId == novos[j].pedidoId
    ensures Importar(vs, existentes, variacoes, produtos, plataforma, parseDate).Failure?
  {
    var ctx := ContextoDe(existentes, variacoes, produtos);
    var novos := Resolvidas(vs, ctx);
    var m := MontarTodos(novos, ctx, plataforma, parseDate);
    if m.Success? {
      assert Linha(novos[i], ctx, plataforma, parseDate) == Success(m.value[i]);
      assert Linha(novos[j], ctx, plataforma, parseDate) == Success(m.value[j]);
      PedidoRepetidoRejeitado(existentes, m.value, i, j);
    }
  }

  /** A non-empty sequence holds its first element. */
  lemma PrimeiroPertence<T>(s: seq<T>)
    ensures |s| > 0 ==> s[0] in s
  {
  }

  /** No sale resolves: nothing is written. */
  lemma NadaResolvidoNadaSalvo(vs: seq<Venda>, existentes: seq<LancamentoVenda>, variacoes: map<string, Variacao>,
                               produtos: map<string, ProdutoPai>, plataforma: string, parseDate: string -> Option<Timestamp>)
    requires forall v :: v in vs ==> !Resolvida(v, ContextoDe(existentes, variacoes, produtos))
    ensures var r := Importar(vs, existentes, variacoes, produtos, plataforma, parseDate);
            r.Success? && r.value.lote == [] && r.value.relatorio.itens == 0
  {
    var ctx := ContextoDe(existentes, variacoes, produtos);
    PrimeiroPertence(Resolvidas(vs, ctx));
  }

  /**
   * With a snapshot that holds every id already seen plus the ids of the rows resolved
   * before, no row resolves again, and each of those rows now counts as a duplicate.
   */
  lemma {:induction false} NadaNovoNaReimportacao(vs: seq<Venda>, c1: Contexto, c2: Contexto)
    requires c2.variacoes == c1.variacoes && c2.produtos == c1.produtos
    requires c1.existentes <= c2.existentes
    requires forall v :: v in Resolvidas(vs, c1) ==> Chave(v.pedidoId) in c2.existentes
    ensures Resolvidas(vs, c2) == []
    ensures ContaDuplicadas(vs, c2) >= ContaDuplicadas(vs, c1) + |Resolvidas(vs, c1)|
  {
    if |vs| > 0 {
      var p := vs[..|vs| - 1];
      var v := vs[|vs| - 1];
      assert forall w :: w in Resolvidas(p, c1) ==> w in Resolvidas(vs, c1);
      NadaNovoNaReimportacao(p, c1, c2);
      if Resolvida(v, c1) {
        assert v in Resolvidas(vs, c1);
      }
    }
  }

  /**
   * Importing the same file again right after a successful import saves nothing: every
   * item saved the first time is now a duplicate.
   */
  lemma Reimportacao(vs: seq<Venda>, existentes: seq<LancamentoVenda>, variacoes: map<string, Variacao>,
                     produtos: map<string, ProdutoPai>, plataforma: string, parseDate: string -> Option<Timestamp>)
    requires Importar(vs, existentes, variacoes, produtos, plataforma, parseDate).Success?
    ensures var r1 := Importar(vs, existentes, variacoes, produtos, plataforma, parseDate).value;
            var r2 := Importar(vs, existentes + r1.lote, variacoes, produtos, plataforma, parseDate);
            && r2.Success? && r2.value.lote == []
            && r2.value.relatorio.duplicadas >= r1.relatorio.duplicadas + r1.relatorio.itens
  {
    var c1 := ContextoDe(existentes, variacoes, produtos);
    var r1 := Importar(vs, existentes, variacoes, produtos, plataforma, parseDate).value;
    var novos := Resolvidas(vs, c1);
    var lote := r1.lote;
    var c2 := ContextoDe(existentes + lote, variacoes, produtos);
    assert |lote| == |novos|;
    forall x | x in PedidoIds(existentes) ensures x in c2.existentes {
      var i :| 0 <= i < |existentes| && existentes[i].pedidoId == x;
      assert (existentes + lote)[i] == existentes[i];
    }
    forall v | v in novos ensures Chave(v.pedidoId) in c2.existentes {
      var i :| 0 <= i < |novos| && novos[i] == v;
      assert Linha(novos[i], c1, plataforma, parseDate) == Success(lote[i]);
      assert (existentes + lote)[|existentes| + i] == lote[i];
    }
    NadaNovoNaReimportacao(vs, c1, c2);
  }

  // ---- the importer as written ----

  /** The keywords line 84 passes to `LancamentosVendas(...)`. */
  const ArgumentosDoImportador: set<string> := {
    "pedidoId", "dataPedido", "plataforma", "skuVenda", "quantidade", "receitaBrutaProduto",
    "totalCupons", "taxasMarketplace", "valorVendaLiquido", "custoTotalCalculado", "lucroLiquidoReal"
  }

  /** Exactly one of them, `plataforma`, names no column of `lancamentos_vendas`. */
  lemma PlataformaNaoDeclarada()
    ensures InvalidKeywords(ArgumentosDoImportador) == {"plataforma"}
  {
    assert "plataforma" !in ColunasLancamentos;
    assert forall k :: k in ArgumentosDoImportador && k != "plataforma" ==> k in ColunasLancamentos;
  }

  /**
   * The import against the schema as declared: the first row's arguments are evaluated
   * (their own errors come first), then the constructor refuses `plataforma`.
   */
  function ImportarComoEscrito(vs: seq<Venda>, existentes: seq<LancamentoVenda>, variacoes: map<string, Variacao>,
                               produtos: map<string, ProdutoPai>, plataforma: string,
                               parseDate: string -> Option<Timestamp>)
    : Result<Resultado, ErroImportacao>
  {
    var ctx := ContextoDe(existentes, variacoes, produtos);
    var novos := Resolvidas(vs, ctx);
    var ruins := InvalidKeywords(ArgumentosDoImportador);
    if |novos| > 0 && ruins != {} then
      assert novos[0] in novos;
      match Linha(novos[0], ctx, plataforma, parseDate)
      case Failure(e) => Failure(e)
      case Success(_) => Failure(ArgumentoInvalido("plataforma"))
    else
      Importar(vs, existentes, variacoes, produtos, plataforma, parseDate)
  }

  /** As written, an import that succeeds stores nothing. */
  lemma ComoEscritoNadaGrava(vs: seq<Venda>, existentes: seq<LancamentoVenda>, variacoes: map<string, Variacao>,
                             produtos: map<string, ProdutoPai>, plataforma: string,
                             parseDate: string -> Option<Timestamp>)
    ensures var r := ImportarComoEscrito(vs, existentes, variacoes, produtos, plataforma, parseDate);
            r.Success? ==> r.value.lote == []
  {
    PlataformaNaoDeclarada();
    var ctx := ContextoDe(existentes, variacoes, produtos);
    if |Resolvidas(vs, ctx)| == 0 {
      assert MontarTodos(Resolvidas(vs, ctx), ctx, plataforma, parseDate) == Success([]);
    }
  }

  /** As written, an import with any resolved sale fails, so no sale is ever stored. */
  lemma ComoEscritoNuncaSalva(vs: seq<Venda>, existentes: seq<LancamentoVenda>, variacoes: map<string, Variacao>,
                              produtos: map<string, ProdutoPai>, plataforma: string,
                              parseDate: string -> Option<Timestamp>)
    requires |Resolvidas(vs, ContextoDe(existentes, variacoes, produtos))| > 0
    ensures ImportarComoEscrito(vs, existentes, variacoes, produtos, plataforma, parseDate).Failure?
  {
    PlataformaNaoDeclarada();
  }

  /** One well-formed Shopee sale of a registered SKU. */
  function VendaExemplo(): Venda {
    Venda(Str("P1"), Str("2024-01-05"), Str("SKU1"), 1.0, 10.0, 2.0, 0.0)
  }

  function DataExemplo(s: string): Option<Timestamp> {
    Some(Timestamp(0, 0))
  }

  /** The catalog of the example: SKU1 is a variation of kit K. */
  function VariacoesExemplo(): map<string, Variacao> {
    map["SKU1" := Variacao("SKU1", "Azul", Some("K"))]
  }

  function ProdutosExemplo(): map<string, ProdutoPai> {
    map["K" := ProdutoPai("K", "Kit", 3.0, 1, 0.5, None)]
  }

  /** The example sale is new and its SKU costs 3.5, so it is the one sale resolved. */
  lemma ExemploResolvido()
    ensures var ctx := ContextoDe([], VariacoesExemplo(), ProdutosExemplo());
            && CustoDaVenda(VendaExemplo(), ctx) == Some(3.5)
            && Resolvida(VendaExemplo(), ctx)
            && Resolvidas([VendaExemplo()], ctx) == [VendaExemplo()]
  {
    var ctx := ContextoDe([], VariacoesExemplo(), ProdutosExemplo());
    assert PedidoIds([]) == {};
    assert PaiDe(ctx.variacoes, "SKU1") == Some("K");
    assert CustoTotalKit(ctx.produtos["K"]) == 3.5;
    assert [VendaExemplo()][..0] == [];
  }

  /** The ledger row the example sale builds: net 8.0 and profit 4.5. */
  lemma ExemploLinha()
    ensures MontarLancamento(VendaExemplo(), 3.5, "Shopee", DataExemplo) ==
              Success(LancamentoVenda("P1", Timestamp(0, 0), "Shopee", "SKU1", 1, 10.0, 0.0, 2.0, 8.0, 3.5, 4.5))
  {
    assert TruncToInt(1.0) == 1;
  }

  /**
   * On an empty ledger and a catalog where SKU1 belongs to kit K, the corrected import
   * stores the sale under "Shopee", while the importer as written fails with TypeError.
   */
  lemma ExemploPlataforma()
    ensures var vs := [VendaExemplo()];
            && ImportarComoEscrito(vs, [], VariacoesExemplo(), ProdutosExemplo(), "Shopee", DataExemplo)
                 == Failure(ArgumentoInvalido("plataforma"))
            && Importar(vs, [], VariacoesExemplo(), ProdutosExemplo(), "Shopee", DataExemplo).Success?
            && Importar(vs, [], VariacoesExemplo(), ProdutosExemplo(), "Shopee", DataExemplo).value.lote ==
                 [LancamentoVenda("P1", Timestamp(0, 0), "Shopee", "SKU1", 1, 10.0, 0.0, 2.0, 8.0, 3.5, 4.5)]
  {
    var vs := [VendaExemplo()];
    var ctx := ContextoDe([], VariacoesExemplo(), ProdutosExemplo());
    var row := LancamentoVenda("P1", Timestamp(0, 0), "Shopee", "SKU1", 1, 10.0, 0.0, 2.0, 8.0, 3.5, 4.5);
    ExemploResolvido();
    ExemploLinha();
    assert Linha(VendaExemplo(), ctx, "Shopee", DataExemplo) == Success(row);
    PlataformaNaoDeclarada();
    assert vs[..0] == [];
    assert MontarTodos(vs[..0], ctx, "Shopee", DataExemplo) == Success([]);
    assert [] + [row] == [row];
    assert vs[|vs| - 1] == VendaExemplo();
    assert MontarTodos(vs, ctx, "Shopee", DataExemplo) == Success([row]);
    assert AceitaLote([], [row]);
  }

  // ---- the page's state: the missing-SKU list and the two actions ----

  /** The rows of an uploaded sheet as the loop sees them. */
  function VendasDaPlanilha(raw: Frame, parse: string -> Option<real>): seq<Venda>
    requires RawFrame(raw)
  {
    RawTextoIntacto(raw);
    VendasDe(Normalizar(raw), parse)
  }

  /** Lines 29 and 58-64: trim and rename the headers, coerce, derive, iterate. */
  method LerVendas(raw: Frame, parse: string -> Option<real>) returns (vs: seq<Venda>)
    requires RawFrame(raw)
    ensures vs == VendasDaPlanilha(raw, parse)
  {
    var f := Normalizar(raw);
    RawTextoIntacto(raw);
    var g := PrepararVendas(f, parse);
    PreparadasSaoVendasDe(f, g, parse);
    vs := Vendas(g);
  }

  /** The first occurrence of `x` removed (`list.remove`). */
  function RemoverPrimeiro<T(==)>(s: seq<T>, x: T): (r: seq<T>)
    ensures x in s ==> |r| == |s| - 1
    ensures x !in s ==> r == s
    ensures forall y :: y in r ==> y in s
    ensures forall y :: y in s && y != x ==> y in r
    ensures SemRepeticao(s) ==> SemRepeticao(r) && x !in r
  {
    if |s| == 0 then []
    else if s[0] == x then
      assert forall i :: 0 <= i < |s| - 1 ==> s[1..][i] == s[i + 1];
      s[1..]
    else
      var t := RemoverPrimeiro(s[1..], x);
      assert forall i :: 0 <= i < |s| - 1 ==> s[1..][i] == s[i + 1];
      assert forall y :: y in s && y != s[0] ==> y in s[1..];
      assert SemRepeticao(s) ==> SemRepeticao([s[0]] + t) by {
        if SemRepeticao(s) {
          assert s[0] !in s[1..];
          var r := [s[0]] + t;
          assert forall i :: 0 < i < |r| ==> r[i] == t[i - 1];
        }
      }
      [s[0]] + t
  }

  class SessaoImportacao {
    /** `st.session_state.skus_nao_encontrados`. */
    var skusNaoEncontrados: seq<Campo>

    ghost predicate Valid()
      reads this
    {
      SemRepeticao(skusNaoEncontrados) && forall c :: c in skusNaoEncontrados ==> SkuVerdadeiro(c)
    }

    constructor ()
      ensures Valid() && skusNaoEncontrados == []
    {
      skusNaoEncontrados := [];
    }

    /**
     * Uploading `raw` and pressing "Processar Vendas" with `plataforma` selected. The list
     * is cleared on upload (line 23) and set only when the import succeeds (line 90); the
     * ledger changes only by the one commit of line 87.
     */
    method ProcessarVendas(raw: Frame, plataforma: string, cat: Catalog, ledger: LedgerStore,
                           parse: string -> Option<real>, parseDate: string -> Option<Timestamp>)
      returns (r: Result<Relatorio, ErroImportacao>)
      requires RawFrame(raw) && ledger.Valid()
      modifies this, ledger
      ensures Valid() && ledger.Valid()
      ensures var esp := Importar(VendasDaPlanilha(raw, parse), old(ledger.lancamentos), cat.variacoes, cat.produtos,
                                  plataforma, parseDate);
              && r == (if esp.Success? then Success(esp.value.relatorio) else Failure(esp.error))
              && ledger.lancamentos == (if esp.Success? then old(ledger.lancamentos) + esp.value.lote else old(ledger.lancamentos))
              && skusNaoEncontrados == (if esp.Success? then esp.value.pendentes else [])
    {
      skusNaoEncontrados := [];
      var vs := LerVendas(raw, parse);
      var existentes := ledger.lancamentos;
      var ctx := Contexto(ledger.PedidosExistentes(), cat.variacoes, cat.produtos);
      ghost var esp := Importar(vs, existentes, cat.variacoes, cat.produtos, plataforma, parseDate);
      assert ctx == ContextoDe(existentes, cat.variacoes, cat.produtos);
      var novos, skus, duplicadas := Reconciliar(vs, ctx);
      var montado, pedidos := MontarLote(novos, ctx, plataforma, parseDate);
      if montado.Failure? {
        assert esp == Failure(montado.error);
        r := Failure(montado.error);
      } else {
        var lote := montado.value;
        var ok := true;
        if |lote| > 0 {
          ok := ledger.Commit(lote);
        }
        if ok {
          assert esp == Success(Resultado(lote, Relatorio(|pedidos|, |lote|, duplicadas), skus));
          r := Success(Relatorio(|pedidos|, |lote|, duplicadas));
          skusNaoEncontrados := skus;
        } else {
          assert esp == Failure(PedidoRepetido);
          r := Failure(PedidoRepetido);
        }
      }
      assert esp == Importar(VendasDaPlanilha(raw, parse), old(ledger.lancamentos), cat.variacoes, cat.produtos,
                             plataforma, parseDate);
    }

    /**
     * "Salvar SKU" (lines 121-133) for a listed SKU: an empty name is refused, a SKU that
     * already exists is refused; otherwise exactly that variation is added, linked to the
     * chosen parent, and the SKU leaves the list.
     */
    method CadastrarSkuFaltante(cat: Catalog, sku: string, nome: string, idPai: string) returns (o: Outcome)
      requires Valid() && cat.Valid() && Str(sku) in skusNaoEncontrados && idPai in cat.produtos
      modifies this, cat
      ensures Valid() && cat.Valid()
      ensures o == if nome == "" then BlankField else if sku in old(cat.variacoes) then AlreadyExists else Saved
      ensures cat.variacoes == if o == Saved then old(cat.variacoes)[sku := Variacao(sku, nome, Some(idPai))]
                               else old(cat.variacoes)
      ensures cat.categorias == old(cat.categorias) && cat.produtos == old(cat.produtos)
      ensures cat.proximoIdCategoria == old(cat.proximoIdCategoria)
      ensures skusNaoEncontrados == if o == Saved then RemoverPrimeiro(old(skusNaoEncontrados), Str(sku))
                                    else old(skusNaoEncontrados)
    {
      if nome == "" {
        return BlankField;
      }
      if sku in cat.variacoes {
        return AlreadyExists;
      }
      cat.variacoes := cat.variacoes[sku := Variacao(sku, nome, Some(idPai))];
      skusNaoEncontrados := RemoverPrimeiro(skusNaoEncontrados, Str(sku));
      o := Saved;
    }
  }

  /** After "Salvar SKU" the SKU resolves to its parent's kit cost and is no longer listed. */
  lemma CadastroResolveSku(variacoes: map<string, Variacao>, produtos: map<string, ProdutoPai>,
                           pendentes: seq<Campo>, sku: string, nome: string, idPai: string)
    requires idPai in produtos && idPai != "" && SemRepeticao(pendentes)
    ensures CalcularCusto(variacoes[sku := Variacao(sku, nome, Some(idPai))], produtos, sku) == Some(CustoTotalKit(produtos[idPai]))
    ensures Str(sku) !in RemoverPrimeiro(pendentes, Str(sku))
  {
    RegisteredSkuResolves(variacoes, produtos, sku, nome, idPai);
  }
}
