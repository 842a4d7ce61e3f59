/** utils/helpers.py: the cost of one unit sold under a SKU, through its parent product. */
module CostResolver {
  import opened Wrappers
  import opened Schema

  /** `custoUnidade * quantidadeKit + custoInsumos`: what one kit of the parent product costs. */
  function CustoTotalKit(p: ProdutoPai): real {
    p.custoUnidade * (p.quantidadeKit as real) + p.custoInsumos
  }

  /** The parent product id a SKU links to, when the link is set and not empty. */
  function PaiDe(variacoes: map<string, Variacao>, sku: string): (r: Option<string>)
    ensures r.Some? <==> sku in variacoes && variacoes[sku].idProdutoPai.Some? && variacoes[sku].idProdutoPai.value != ""
    ensures r.Some? ==> variacoes[sku].idProdutoPai == r
  {
    if sku in variacoes && variacoes[sku].idProdutoPai.Some? && variacoes[sku].idProdutoPai.value != ""
    then variacoes[sku].idProdutoPai
    else None
  }

  /**
   * `calcular_custo_pelo_produto_pai`: no variation, an empty or missing parent link, or a
   * dangling link yields None; otherwise the parent's kit cost. A function of the catalog
   * maps, so the catalog is unchanged by the call.
   */
  function CalcularCusto(variacoes: map<string, Variacao>, produtos: map<string, ProdutoPai>, sku: string): (r: Option<real>)
    ensures r.None? <==> PaiDe(variacoes, sku).None? || PaiDe(variacoes, sku).value !in produtos
    ensures r.Some? ==> r.value == CustoTotalKit(produtos[PaiDe(variacoes, sku).value])
  {
    match PaiDe(variacoes, sku)
    case None => None
    case Some(id) => if id in produtos then Some(CustoTotalKit(produtos[id])) else None
  }

  /** Two SKUs linked to the same parent product resolve to the same cost. */
  lemma SameParentSameCost(variacoes: map<string, Variacao>, produtos: map<string, ProdutoPai>, a: string, b: string)
    requires a in variacoes && b in variacoes
    requires variacoes[a].idProdutoPai == variacoes[b].idProdutoPai
    ensures CalcularCusto(variacoes, produtos, a) == CalcularCusto(variacoes, produtos, b)
  {
  }

  /** A SKU resolves exactly when it links to an existing parent product. */
  lemma ResolvesIffLinked(variacoes: map<string, Variacao>, produtos: map<string, ProdutoPai>, sku: string)
    ensures CalcularCusto(variacoes, produtos, sku).Some? <==>
      sku in variacoes && variacoes[sku].idProdutoPai.Some? && variacoes[sku].idProdutoPai.value != ""
      && variacoes[sku].idProdutoPai.value in produtos
  {
  }

  /** Registering a SKU under an existing, non-empty parent id makes it resolve to that parent's kit cost. */
  lemma RegisteredSkuResolves(variacoes: map<string, Variacao>, produtos: map<string, ProdutoPai>,
                              sku: string, nome: string, idPai: string)
    requires idPai in produtos && idPai != ""
    ensures CalcularCusto(variacoes[sku := Variacao(sku, nome, Some(idPai))], produtos, sku)
            == Some(CustoTotalKit(produtos[idPai]))
  {
  }

  /**
   * Removing a parent product together with every variation linked to it leaves the cost of
   * every remaining SKU as it was, and the removed SKUs no longer resolve.
   */
  lemma {:induction false} CascadePreservesOtherCosts(variacoes: map<string, Variacao>, produtos: map<string, ProdutoPai>,
                                                     id: string, sku: string)
    ensures var vs := map k | k in variacoes && variacoes[k].idProdutoPai != Some(id) :: variacoes[k];
            CalcularCusto(vs, produtos - {id}, sku) ==
              if sku in variacoes && variacoes[sku].idProdutoPai == Some(id) then None
              else CalcularCusto(variacoes, produtos, sku)
  {
    var vs := map k | k in variacoes && variacoes[k].idProdutoPai != Some(id) :: variacoes[k];
    if sku in vs {
      assert vs[sku] == variacoes[sku];
    }
  }
}
