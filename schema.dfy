/**
 * The store's tables (categorias, produtos_pai, variacoes, lancamentos_vendas)
 * as value types, with the key and uniqueness constraints the schema declares.
 */
module Schema {
  import opened Wrappers

  /** A point in time; reports and the dashboard compare only its `day` (pandas' `.dt.date`). */
  datatype Timestamp = Timestamp(day: int, time: int)

  /** `categorias`: integer key, `nome` NOT NULL and UNIQUE. */
  datatype Categoria = Categoria(id: int, nome: string)

  /** `produtos_pai`: keyed by the operator-chosen `idProdutoPai`; `categoria_id` is nullable. */
  datatype ProdutoPai = ProdutoPai(
    idProdutoPai: string,
    nomeProdutoPai: string,
    custoUnidade: real,
    quantidadeKit: int,
    custoInsumos: real,
    categoriaId: Option<int>)

  /** `variacoes`: keyed by `skuVariacao`; the link to the parent product is nullable. */
  datatype Variacao = Variacao(skuVariacao: string, nomeVariacao: string, idProdutoPai: Option<string>)

  /**
   * One `lancamentos_vendas` row. Every field is NOT NULL, so none is optional here.
   * `plataforma` is not declared by the schema as written; see `InvalidKeywords`.
   */
  datatype LancamentoVenda = LancamentoVenda(
    pedidoId: string,
    dataPedido: Timestamp,
    plataforma: string,
    skuVenda: string,
    quantidade: int,
    receitaBrutaProduto: real,
    totalCupons: real,
    taxasMarketplace: real,
    valorVendaLiquido: real,
    custoTotalCalculado: real,
    lucroLiquidoReal: real)

  /** Column defaults of `produtos_pai`; every form passes explicit values instead. */
  const DefaultCustoUnidade: real := 0.0
  const DefaultQuantidadeKit: int := 1
  const DefaultCustoInsumos: real := 0.0

  /** The columns `lancamentos_vendas` declares, the only keywords its constructor accepts. */
  const ColunasLancamentos: set<string> := {
    "id", "pedidoId", "dataPedido", "skuVenda", "quantidade", "receitaBrutaProduto",
    "totalCupons", "taxasMarketplace", "valorVendaLiquido", "custoTotalCalculado", "lucroLiquidoReal"
  }

  /**
   * The declarative constructor raises TypeError for a keyword that names no column:
   * the result is the set of offending keywords (empty when construction succeeds).
   */
  function InvalidKeywords(kwargs: set<string>): (bad: set<string>)
    ensures bad <= kwargs
    ensures forall k :: k in kwargs ==> (k in bad <==> k !in ColunasLancamentos)
  {
    kwargs - ColunasLancamentos
  }

  /**
   * The stored profit agrees with what the dashboard computes from the other fields:
   * revenue `receitaBrutaProduto * quantidade` less the kit cost per unit, fees and coupons.
   */
  predicate LucroConsistente(r: LancamentoVenda) {
    var q := r.quantidade as real;
    r.lucroLiquidoReal == r.receitaBrutaProduto * q - (r.custoTotalCalculado * q + r.taxasMarketplace + r.totalCupons)
  }

  // ---- key and uniqueness constraints ----

  ghost predicate CategoriasKeyed(m: map<int, Categoria>) {
    forall k :: k in m ==> m[k].id == k
  }

  ghost predicate NomesUnicos(m: map<int, Categoria>) {
    forall a, b :: a in m && b in m && m[a].nome == m[b].nome ==> a == b
  }

  ghost predicate ProdutosKeyed(m: map<string, ProdutoPai>) {
    forall k :: k in m ==> m[k].idProdutoPai == k
  }

  ghost predicate VariacoesKeyed(m: map<string, Variacao>) {
    forall k :: k in m ==> m[k].skuVariacao == k
  }

  /** `pedidoId` is UNIQUE: no two ledger rows share an order id. */
  predicate PedidosUnicos(rows: seq<LancamentoVenda>) {
    forall i, j :: 0 <= i < j < |rows| ==> rows[i].pedidoId != rows[j].pedidoId
  }

  /** The set of order ids of some rows (`{str(id[0]) for id in query(pedidoId)}`, `nunique`). */
  function PedidoIds(rows: seq<LancamentoVenda>): (ids: set<string>)
    ensures forall i :: 0 <= i < |rows| ==> rows[i].pedidoId in ids
    ensures forall x :: x in ids ==> exists i :: 0 <= i < |rows| && rows[i].pedidoId == x
  {
    if |rows| == 0 then {} else PedidoIds(rows[..|rows| - 1]) + {rows[|rows| - 1].pedidoId}
  }

  /**
   * The number of distinct order ids never exceeds the number of rows, and equals it exactly
   * when the order ids are unique: under the UNIQUE constraint "orders" and "items" coincide.
   */
  lemma {:induction false} DistinctOrdersVsItems(rows: seq<LancamentoVenda>)
    ensures |PedidoIds(rows)| <= |rows|
    ensures |PedidoIds(rows)| == |rows| <==> PedidosUnicos(rows)
  {
    if |rows| > 0 {
      var p := rows[..|rows| - 1];
      var x := rows[|rows| - 1].pedidoId;
      var ids := PedidoIds(p);
      DistinctOrdersVsItems(p);
      UnicosUltimo(rows);
      assert PedidoIds(rows) == ids + {x};
      if x in ids {
        assert ids + {x} == ids;
      } else {
        assert |ids + {x}| == |ids| + 1;
      }
    }
  }

  /** Under unique order ids the last row's id is new to the rows before it. */
  lemma UltimoNovo(vs: seq<LancamentoVenda>)
    requires |vs| > 0 && PedidosUnicos(vs)
    ensures PedidosUnicos(vs[..|vs| - 1])
    ensures vs[|vs| - 1].pedidoId !in PedidoIds(vs[..|vs| - 1])
  {
    var p := vs[..|vs| - 1];
    forall i | 0 <= i < |p| ensures p[i].pedidoId != vs[|vs| - 1].pedidoId {
      assert p[i] == vs[i];
    }
  }

  /** Appending a row with a new order id keeps the ids unique. */
  lemma AcrescentarNovo(a: seq<LancamentoVenda>, x: LancamentoVenda)
    requires PedidosUnicos(a) && x.pedidoId !in PedidoIds(a)
    ensures PedidosUnicos(a + [x])
    ensures PedidoIds(a + [x]) == PedidoIds(a) + {x.pedidoId}
  {
    assert (a + [x])[..|a|] == a;
    forall i, j | 0 <= i < j < |a| + 1 ensures (a + [x])[i].pedidoId != (a + [x])[j].pedidoId {
      if j < |a| {
        assert (a + [x])[i] == a[i] && (a + [x])[j] == a[j];
      } else {
        assert (a + [x])[i] == a[i];
      }
    }
  }

  /** The order ids are unique exactly when those before the last row are and the last one is new. */
  lemma UnicosUltimo(rows: seq<LancamentoVenda>)
    requires |rows| > 0
    ensures var p := rows[..|rows| - 1];
            PedidosUnicos(rows) <==> PedidosUnicos(p) && rows[|rows| - 1].pedidoId !in PedidoIds(p)
  {
    var p := rows[..|rows| - 1];
    var x := rows[|rows| - 1];
    if PedidosUnicos(rows) {
      UltimoNovo(rows);
    }
    if PedidosUnicos(p) && x.pedidoId !in PedidoIds(p) {
      assert rows == p + [x];
      AcrescentarNovo(p, x);
    }
  }

  /** Appending a row adds its order id to the ids. */
  lemma PedidoIdsAcrescentar(a: seq<LancamentoVenda>, x: LancamentoVenda)
    ensures PedidoIds(a + [x]) == PedidoIds(a) + {x.pedidoId}
  {
    assert (a + [x])[..|a|] == a;
  }
}
