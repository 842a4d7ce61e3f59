/**
 * pages/cadastrosGerais.py without its widgets: each form handler is a guarded transition
 * of the catalog (categories, parent products, SKU variations). Selections made from a
 * select box are preconditions: the form only offers rows that exist.
 */
module Cadastros {
  import opened Wrappers
  import opened Text
  import opened Schema

  /** What a handler reports: saved, or the guard that refused it. */
  datatype Outcome =
    | Saved
    | BlankField        // "O nome ... é obrigatório." / "Os campos com * são obrigatórios."
    | AlreadyExists     // "Esta categoria já existe." / "ID ... já existe!" / "SKU ... já existe!"
    | NotConfirmed      // "Você precisa confirmar a exclusão marcando a caixa."
    | UniqueViolation   // the commit raised IntegrityError on `categorias.nome`

  /** Some category other than `except` already carries `nome`. */
  ghost predicate NomeEmUso(m: map<int, Categoria>, nome: string, except: Option<int>) {
    exists k :: k in m && Some(k) != except && m[k].nome == nome
  }

  /** `delete(Variacao).where(Variacao.idProdutoPai == id)`: the variations left after the cascade. */
  function SemVariacoesDe(variacoes: map<string, Variacao>, id: string): (r: map<string, Variacao>)
    ensures forall k :: k in r <==> k in variacoes && variacoes[k].idProdutoPai != Some(id)
    ensures forall k :: k in r ==> r[k] == variacoes[k]
  {
    map k | k in variacoes && variacoes[k].idProdutoPai != Some(id) :: variacoes[k]
  }

  /** Renaming a category to a name no other category holds keeps names unique. */
  lemma RenameKeepsNamesUnique(m: map<int, Categoria>, id: int, n: string)
    requires NomesUnicos(m) && CategoriasKeyed(m)
    requires forall k :: k in m && k != id ==> m[k].nome != n
    ensures NomesUnicos(m[id := Categoria(id, n)]) && CategoriasKeyed(m[id := Categoria(id, n)])
  {
    var m' := m[id := Categoria(id, n)];
    forall a, b | a in m' && b in m' && m'[a].nome == m'[b].nome ensures a == b {
      if a != id && b != id {
        assert m'[a] == m[a] && m'[b] == m[b];
      }
    }
  }

  class Catalog {
    var categorias: map<int, Categoria>
    var produtos: map<string, ProdutoPai>
    var variacoes: map<string, Variacao>
    /** The key the next category receives (the store's autoincrement). */
    var proximoIdCategoria: int

    /** The schema's key and uniqueness constraints, plus: product ids are never empty. */
    ghost predicate Valid()
      reads this
    {
      && CategoriasKeyed(categorias)
      && NomesUnicos(categorias)
      && ProdutosKeyed(produtos)
      && VariacoesKeyed(variacoes)
      && (forall k :: k in categorias ==> k < proximoIdCategoria)
      && (forall k :: k in produtos ==> k != "")
    }

    constructor ()
      ensures Valid()
      ensures categorias == map[] && produtos == map[] && variacoes == map[]
    {
      categorias, produtos, variacoes := map[], map[], map[];
      proximoIdCategoria := 1;
    }

    /** "Salvar Categoria" (pages/cadastrosGerais.py:21-32). */
    method AddCategoria(nome: string) returns (o: Outcome)
      requires Valid()
      modifies this
      ensures Valid()
      ensures o == if IsBlank(nome) then BlankField
                   else if NomeEmUso(old(categorias), Strip(nome), None) then AlreadyExists
                   else Saved
      ensures o == Saved ==> exists id :: id !in old(categorias) &&
                               categorias == old(categorias)[id := Categoria(id, Strip(nome))]
      ensures o != Saved ==> categorias == old(categorias)
      ensures produtos == old(produtos) && variacoes == old(variacoes)
    {
      if IsBlank(nome) {
        return BlankField;
      }
      var n := Strip(nome);
      if exists k :: k in categorias && categorias[k].nome == n {
        return AlreadyExists;
      }
      var id := proximoIdCategoria;
      categorias := categorias[id := Categoria(id, n)];
      proximoIdCategoria := id + 1;
      o := Saved;
    }

    /**
     * "Atualizar Categoria" (pages/cadastrosGerais.py:41-50). There is no duplicate check
     * before the update: a name held by another category makes the commit fail on the
     * UNIQUE constraint, and nothing changes.
     */
    method EditCategoria(id: int, novoNome: string) returns (o: Outcome)
      requires Valid() && id in categorias
      modifies this
      ensures Valid()
      ensures o == if IsBlank(novoNome) then BlankField
                   else if NomeEmUso(old(categorias), Strip(novoNome), Some(id)) then UniqueViolation
                   else Saved
      ensures categorias == if o == Saved then old(categorias)[id := Categoria(id, Strip(novoNome))]
                            else old(categorias)
      ensures produtos == old(produtos) && variacoes == old(variacoes)
    {
      if IsBlank(novoNome) {
        return BlankField;
      }
      var n := Strip(novoNome);
      if exists k :: k in categorias && k != id && categorias[k].nome == n {
        return UniqueViolation;
      }
      RenameKeepsNamesUnique(categorias, id, n);
      categorias := categorias[id := Categoria(id, n)];
      o := Saved;
    }

    /**
     * "Deletar Categoria Selecionada" (pages/cadastrosGerais.py:59-66). Products that pointed
     * to the category keep their `categoria_id` (the store does not enforce the foreign key).
     */
    method DeleteCategoria(id: int, confirmacao: bool) returns (o: Outcome)
      requires Valid() && id in categorias
      modifies this
      ensures Valid()
      ensures o == if confirmacao then Saved else NotConfirmed
      ensures categorias == if confirmacao then old(categorias) - {id} else old(categorias)
      ensures produtos == old(produtos) && variacoes == old(variacoes)
    {
      if !confirmacao {
        return NotConfirmed;
      }
      categorias := categorias - {id};
      o := Saved;
    }

    /**
     * "Salvar Novo Produto" (pages/cadastrosGerais.py:92-109). The number inputs enforce
     * `quantidadeKit >= 1` and non-negative costs; the category comes from a select box.
     */
    method AddProduto(id: string, nome: string, categoriaId: int,
                      custoUnidade: real, quantidadeKit: int, custoInsumos: real) returns (o: Outcome)
      requires Valid() && categoriaId in categorias
      requires quantidadeKit >= 1 && custoUnidade >= 0.0 && custoInsumos >= 0.0
      modifies this
      ensures Valid()
      ensures o == if IsBlank(id) || IsBlank(nome) then BlankField
                   else if Strip(id) in old(produtos) then AlreadyExists
                   else Saved
      ensures produtos == if o == Saved
                          then old(produtos)[Strip(id) := ProdutoPai(Strip(id), Strip(nome), custoUnidade,
                                                                     quantidadeKit, custoInsumos, Some(categoriaId))]
                          else old(produtos)
      ensures categorias == old(categorias) && variacoes == old(variacoes)
    {
      if IsBlank(id) || IsBlank(nome) {
        return BlankField;
      }
      var k := Strip(id);
      if k in produtos {
        return AlreadyExists;
      }
      produtos := produtos[k := ProdutoPai(k, Strip(nome), custoUnidade, quantidadeKit, custoInsumos, Some(categoriaId))];
      o := Saved;
    }

    /**
     * "Atualizar Produto" (pages/cadastrosGerais.py:132-145): name, category, both costs and the
     * kit quantity are replaced, the id is kept. The cost inputs here have no lower bound.
     */
    method EditProduto(id: string, novoNome: string, novaCategoriaId: int,
                       novoCustoUnidade: real, novaQuantidadeKit: int, novoCustoInsumos: real) returns (o: Outcome)
      requires Valid() && id in produtos && novaCategoriaId in categorias
      requires novaQuantidadeKit >= 1
      modifies this
      ensures Valid()
      ensures o == if IsBlank(novoNome) then BlankField else Saved
      ensures produtos == if o == Saved
                          then old(produtos)[id := ProdutoPai(id, Strip(novoNome), novoCustoUnidade,
                                                             novaQuantidadeKit, novoCustoInsumos, Some(novaCategoriaId))]
                          else old(produtos)
      ensures categorias == old(categorias) && variacoes == old(variacoes)
    {
      if IsBlank(novoNome) {
        return BlankField;
      }
      produtos := produtos[id := ProdutoPai(id, Strip(novoNome), novoCustoUnidade, novaQuantidadeKit,
                                            novoCustoInsumos, Some(novaCategoriaId))];
      o := Saved;
    }

    /**
     * "Deletar Produto e SKUs" (pages/cadastrosGerais.py:154-162): first every variation linked
     * to the product, then the product itself.
     */
    method DeleteProduto(id: string, confirmacao: bool) returns (o: Outcome)
      requires Valid() && id in produtos
      modifies this
      ensures Valid()
      ensures o == if confirmacao then Saved else NotConfirmed
      ensures produtos == if confirmacao then old(produtos) - {id} else old(produtos)
      ensures variacoes == if confirmacao then SemVariacoesDe(old(variacoes), id) else old(variacoes)
      ensures categorias == old(categorias)
    {
      if !confirmacao {
        return NotConfirmed;
      }
      variacoes := SemVariacoesDe(variacoes, id);
      produtos := produtos - {id};
      o := Saved;
    }

    /** "Salvar Nova Variação" (pages/cadastrosGerais.py:182-193). */
    method AddVariacao(sku: string, nome: string, idPai: string) returns (o: Outcome)
      requires Valid() && idPai in produtos
      modifies this
      ensures Valid()
      ensures o == if IsBlank(sku) || IsBlank(nome) then BlankField
                   else if Strip(sku) in old(variacoes) then AlreadyExists
                   else Saved
      ensures variacoes == if o == Saved
                           then old(variacoes)[Strip(sku) := Variacao(Strip(sku), Strip(nome), Some(idPai))]
                           else old(variacoes)
      ensures categorias == old(categorias) && produtos == old(produtos)
    {
      if IsBlank(sku) || IsBlank(nome) {
        return BlankField;
      }
      var k := Strip(sku);
      if k in variacoes {
        return AlreadyExists;
      }
      variacoes := variacoes[k := Variacao(k, Strip(nome), Some(idPai))];
      o := Saved;
    }

    /** "Atualizar Variação" (pages/cadastrosGerais.py:202-211): only the name changes. */
    method EditVariacao(sku: string, novoNome: string) returns (o: Outcome)
      requires Valid() && sku in variacoes
      modifies this
      ensures Valid()
      ensures o == if IsBlank(novoNome) then BlankField else Saved
      ensures variacoes == if o == Saved
                           then old(variacoes)[sku := old(variacoes)[sku].(nomeVariacao := Strip(novoNome))]
                           else old(variacoes)
      ensures categorias == old(categorias) && produtos == old(produtos)
    {
      if IsBlank(novoNome) {
        o := BlankField;
      } else {
        var v := variacoes[sku].(nomeVariacao := Strip(novoNome));
        assert v.skuVariacao == sku;
        variacoes := variacoes[sku := v];
        o := Saved;
      }
    }

    /** "Deletar Variação" (pages/cadastrosGerais.py:220-227). */
    method DeleteVariacao(sku: string, confirmacao: bool) returns (o: Outcome)
      requires Valid() && sku in variacoes
      modifies this
      ensures Valid()
      ensures o == if confirmacao then Saved else NotConfirmed
      ensures variacoes == if confirmacao then old(variacoes) - {sku} else old(variacoes)
      ensures categorias == old(categorias) && produtos == old(produtos)
    {
      if !confirmacao {
        return NotConfirmed;
      }
      variacoes := variacoes - {sku};
      o := Saved;
    }
  }
}
