/**
 * pages/importarVendas.py, lines 10-14 and 29-64: platform detection, header trimming and
 * renaming, numeric coercion and the two derived columns, ending in the typed view of
 * each row that the reconciliation loop reads.
 */
module Normalizacao {
  import opened Wrappers
  import opened Text
  import opened Frames

  // ---- platform detection ----

  /** `detectar_plataforma`: "Shopee" when the three Shopee headers are all present. */
  function DetectarPlataforma(colunas: seq<string>): (r: Option<string>)
    ensures r == Some("Shopee") <==>
      "ID do pedido" in colunas && "Taxa de comissão" in colunas && "Taxa de serviço" in colunas
    ensures r != Some("Shopee") ==> r == None
  {
    if {"ID do pedido", "Taxa de comissão", "Taxa de serviço"} <= (set c | c in colunas) then Some("Shopee")
    else None
  }

  const PlataformasDisponiveis: seq<string> := ["Shopee", "Mercado Livre", "Shein", "Outra"]

  /** The option the platform select box starts on: the detected platform if listed, else "Outra". */
  function IndicePlataforma(detectada: Option<string>): (k: nat)
    ensures k < |PlataformasDisponiveis|
    ensures detectada.Some? && detectada.value in PlataformasDisponiveis ==> PlataformasDisponiveis[k] == detectada.value
    ensures !(detectada.Some? && detectada.value in PlataformasDisponiveis) ==> k == 3
  {
    if detectada.Some? then
      match IndexOf(PlataformasDisponiveis, detectada.value)
      case Some(k) => k
      case None => 3
    else 3
  }

  /** The select box starts on "Shopee" exactly for a Shopee export, on "Outra" otherwise. */
  lemma PreSelecao(colunas: seq<string>)
    ensures PlataformasDisponiveis[IndicePlataforma(DetectarPlataforma(colunas))] ==
      if "ID do pedido" in colunas && "Taxa de comissão" in colunas && "Taxa de serviço" in colunas
      then "Shopee" else "Outra"
  {
  }

  /** A name is among the trimmed headers exactly when some header trims to it. */
  lemma EntreAparados(colunas: seq<string>, h: string)
    ensures h in Mapear(colunas, Strip) <==> exists k :: 0 <= k < |colunas| && Strip(colunas[k]) == h
  {
    var m := Mapear(colunas, Strip);
    if h in m {
      var k :| 0 <= k < |m| && m[k] == h;
      assert Strip(colunas[k]) == h;
    }
    if exists k :: 0 <= k < |colunas| && Strip(colunas[k]) == h {
      var k :| 0 <= k < |colunas| && Strip(colunas[k]) == h;
      assert m[k] == h;
    }
  }

  /**
   * Detection runs on the headers as trimmed at line 29, so a header such as " ID do pedido "
   * still counts: "Shopee" is preselected exactly when each of the three Shopee headers is,
   * once trimmed, some header of the sheet.
   */
  lemma PreSelecaoAposAparar(colunas: seq<string>)
    ensures PlataformasDisponiveis[IndicePlataforma(DetectarPlataforma(Mapear(colunas, Strip)))] ==
      if && (exists k :: 0 <= k < |colunas| && Strip(colunas[k]) == "ID do pedido")
         && (exists k :: 0 <= k < |colunas| && Strip(colunas[k]) == "Taxa de comissão")
         && (exists k :: 0 <= k < |colunas| && Strip(colunas[k]) == "Taxa de serviço")
      then "Shopee" else "Outra"
  {
    PreSelecao(Mapear(colunas, Strip));
    EntreAparados(colunas, "ID do pedido");
    EntreAparados(colunas, "Taxa de comissão");
    EntreAparados(colunas, "Taxa de serviço");
  }

  // ---- header normalisation ----

  /** `mapa_colunas`: Shopee export header -> canonical field name. */
  const MapaColunas: map<string, string> := map[
    "ID do pedido" := "pedidoId",
    "Data de criação do pedido" := "dataPedido",
    "Número de referência SKU" := "skuVenda",
    "Quantidade" := "quantidade",
    "Preço acordado" := "receitaBrutaProduto",
    "Taxa de comissão" := "taxaComissao",
    "Taxa de serviço" := "taxaServico",
    "Taxa de transação" := "taxaTransacao",
    "Cupom do vendedor" := "cupomVendedor",
    "Cupom Shopee" := "cupomShopee",
    "Reembolso Shopee" := "reembolsoShopee"
  ]

  /** `rename(columns=mapa_colunas)` on one header: unmapped headers keep their name. */
  function Renomear(h: string): string {
    if h in MapaColunas then MapaColunas[h] else h
  }

  /** No two export headers are renamed to the same field. */
  lemma MapaColunasInjetivo()
    ensures forall a, b :: a in MapaColunas && b in MapaColunas && MapaColunas[a] == MapaColunas[b] ==> a == b
  {
  }

  /** One header stripped, then renamed. */
  function Cabecalho(h: string): string {
    Renomear(Strip(h))
  }

  /** `columns.str.strip()` followed by the rename. */
  function NormalizarCabecalhos(colunas: seq<string>): (r: seq<string>)
    ensures |r| == |colunas|
    ensures forall j :: 0 <= j < |r| ==> r[j] == Renomear(Strip(colunas[j]))
  {
    Mapear(colunas, Cabecalho)
  }

  /** Line 29 and the rename at line 58: every header is trimmed then renamed, the rows stay. */
  function Normalizar(f: Frame): (g: Frame)
    ensures g.rows == f.rows && |g.columns| == |f.columns|
    ensures forall j :: 0 <= j < |g.columns| ==> g.columns[j] == Renomear(Strip(f.columns[j]))
    ensures WellFormed(f) ==> WellFormed(g)
  {
    Frame(NormalizarCabecalhos(f.columns), f.rows)
  }

  // ---- numeric coercion ----

  const ColunasNumericas: seq<string> := [
    "quantidade", "receitaBrutaProduto", "taxaComissao", "taxaServico",
    "taxaTransacao", "cupomVendedor", "cupomShopee", "reembolsoShopee"
  ]

  /** `pd.to_numeric(cell, errors='coerce')` then `fillna(0)`; the parser itself is a parameter. */
  function ParaNumero(c: Cell, parse: string -> Option<real>): real {
    match c
    case Blank => 0.0
    case Text(s) => parse(s).GetOr(0.0)
    case Num(x) => x
  }

  /** The number a numeric field ends up with: 0 when the column is missing (`df[col] = 0`). */
  function ValorNumerico(o: Option<Cell>, parse: string -> Option<real>): real {
    match o
    case None => 0.0
    case Some(c) => ParaNumero(c, parse)
  }

  /** Reading a coerced cell as a number. */
  function NumeroDe(o: Option<Cell>): real {
    if o.Some? && o.value.Num? then o.value.x else 0.0
  }

  /** The coerced column `col` of `g`, one number per row. */
  function ColunaConvertida(g: Frame, col: string, parse: string -> Option<real>): (vs: seq<Cell>)
    requires WellFormed(g)
    ensures |vs| == |g.rows|
    ensures forall i :: 0 <= i < |vs| ==> vs[i] == Num(ValorNumerico(Get(g, i, col), parse))
  {
    seq(|g.rows|, i requires 0 <= i < |g.rows| => Num(ValorNumerico(Get(g, i, col), parse)))
  }

  /** `df[a] + df[b] + df[c]` over coerced columns. */
  function Soma3(g: Frame, a: string, b: string, c: string): (vs: seq<Cell>)
    requires WellFormed(g)
    ensures |vs| == |g.rows|
    ensures forall i :: 0 <= i < |vs| ==> vs[i] == Num(NumeroDe(Get(g, i, a)) + NumeroDe(Get(g, i, b)) + NumeroDe(Get(g, i, c)))
  {
    seq(|g.rows|, i requires 0 <= i < |g.rows| => Num(NumeroDe(Get(g, i, a)) + NumeroDe(Get(g, i, b)) + NumeroDe(Get(g, i, c))))
  }

  function Taxas(f: Frame, i: nat, parse: string -> Option<real>): real
    requires WellFormed(f) && i < |f.rows|
  {
    ValorNumerico(Get(f, i, "taxaComissao"), parse) + ValorNumerico(Get(f, i, "taxaServico"), parse)
      + ValorNumerico(Get(f, i, "taxaTransacao"), parse)
  }

  function Cupons(f: Frame, i: nat, parse: string -> Option<real>): real
    requires WellFormed(f) && i < |f.rows|
  {
    ValorNumerico(Get(f, i, "cupomVendedor"), parse) + ValorNumerico(Get(f, i, "cupomShopee"), parse)
      + ValorNumerico(Get(f, i, "reembolsoShopee"), parse)
  }

  /**
   * One pass of the loop at lines 59-62: `df[col] = 0` when the column is missing, then
   * `df[col] = pd.to_numeric(df[col], errors='coerce').fillna(0)`.
   */
  method ConverterColuna(g: Frame, col: string, parse: string -> Option<real>) returns (h: Frame)
    requires WellFormed(g)
    ensures WellFormed(h) && |h.rows| == |g.rows|
    ensures forall i :: 0 <= i < |h.rows| ==> Get(h, i, col) == Some(Num(ValorNumerico(Get(g, i, col), parse)))
    ensures forall i, n {:trigger Get(h, i, n)} :: 0 <= i < |h.rows| && n != col ==> Get(h, i, n) == Get(g, i, n)
  {
    h := g;
    if col !in g.columns {
      h := SetColumn(h, col, seq(|g.rows|, _ => Num(0.0)));
    }
    assert forall i :: 0 <= i < |g.rows| ==> ValorNumerico(Get(h, i, col), parse) == ValorNumerico(Get(g, i, col), parse);
    h := SetColumn(h, col, ColunaConvertida(h, col, parse));
  }

  /**
   * Lines 59-64 on the renamed frame: each numeric column is created as 0 when missing and
   * coerced, then `taxasMarketplace` and `totalCupons` are set. Every numeric column ends up
   * present in every row, holding the coerced value of the original cell (0 when the
   * column or the number was missing); the derived columns hold their sums; all other
   * columns are as they were.
   */
  method PrepararVendas(f: Frame, parse: string -> Option<real>) returns (g: Frame)
    requires WellFormed(f)
    ensures WellFormed(g) && |g.rows| == |f.rows|
    ensures forall c, i {:trigger Get(g, i, c)} :: c in ColunasNumericas && 0 <= i < |g.rows| ==>
              Get(g, i, c) == Some(Num(ValorNumerico(Get(f, i, c), parse)))
    ensures forall i :: 0 <= i < |g.rows| ==> Get(g, i, "taxasMarketplace") == Some(Num(Taxas(f, i, parse)))
    ensures forall i :: 0 <= i < |g.rows| ==> Get(g, i, "totalCupons") == Some(Num(Cupons(f, i, parse)))
    ensures forall n, i {:trigger Get(g, i, n)} :: n !in ColunasNumericas && n != "taxasMarketplace" && n != "totalCupons" && 0 <= i < |g.rows| ==>
              Get(g, i, n) == Get(f, i, n)
  {
    var h := ConverterNumericas(f, parse);
    g := AdicionarAgregados(h);
    Preparado(f, h, g, parse);
  }

  /** Composing the two stages of `PrepararVendas`. */
  lemma Preparado(f: Frame, h: Frame, g: Frame, parse: string -> Option<real>)
    requires WellFormed(f) && WellFormed(h) && WellFormed(g) && |h.rows| == |f.rows| && |g.rows| == |h.rows|
    requires forall c, i {:trigger Get(h, i, c)} :: c in ColunasNumericas && 0 <= i < |h.rows| ==>
               Get(h, i, c) == Some(Num(ValorNumerico(Get(f, i, c), parse)))
    requires forall n, i {:trigger Get(h, i, n)} :: n !in ColunasNumericas && 0 <= i < |h.rows| ==> Get(h, i, n) == Get(f, i, n)
    requires forall i :: 0 <= i < |g.rows| ==>
               Get(g, i, "taxasMarketplace") ==
               Some(Num(NumeroDe(Get(h, i, "taxaComissao")) + NumeroDe(Get(h, i, "taxaServico")) + NumeroDe(Get(h, i, "taxaTransacao"))))
    requires forall i :: 0 <= i < |g.rows| ==>
               Get(g, i, "totalCupons") ==
               Some(Num(NumeroDe(Get(h, i, "cupomVendedor")) + NumeroDe(Get(h, i, "cupomShopee")) + NumeroDe(Get(h, i, "reembolsoShopee"))))
    requires forall n, i {:trigger Get(g, i, n)} :: n != "taxasMarketplace" && n != "totalCupons" && 0 <= i < |g.rows| ==>
               Get(g, i, n) == Get(h, i, n)
    ensures forall c, i {:trigger Get(g, i, c)} :: c in ColunasNumericas && 0 <= i < |g.rows| ==>
              Get(g, i, c) == Some(Num(ValorNumerico(Get(f, i, c), parse)))
    ensures forall i :: 0 <= i < |g.rows| ==> Get(g, i, "taxasMarketplace") == Some(Num(Taxas(f, i, parse)))
    ensures forall i :: 0 <= i < |g.rows| ==> Get(g, i, "totalCupons") == Some(Num(Cupons(f, i, parse)))
    ensures forall n, i {:trigger Get(g, i, n)} :: n !in ColunasNumericas && n != "taxasMarketplace" && n != "totalCupons" && 0 <= i < |g.rows| ==>
              Get(g, i, n) == Get(f, i, n)
  {
    SomasConvertidas(f, h, parse);
    AgregadosPreservamNumericas(f, h, g, parse);
    TaxasPreparadas(f, h, g, parse);
    CuponsPreparados(f, h, g, parse);
  }

  lemma TaxasPreparadas(f: Frame, h: Frame, g: Frame, parse: string -> Option<real>)
    requires WellFormed(f) && WellFormed(h) && WellFormed(g) && |h.rows| == |f.rows| && |g.rows| == |h.rows|
    requires forall i :: 0 <= i < |h.rows| ==>
               NumeroDe(Get(h, i, "taxaComissao")) + NumeroDe(Get(h, i, "taxaServico")) + NumeroDe(Get(h, i, "taxaTransacao"))
               == Taxas(f, i, parse)
    requires forall i :: 0 <= i < |g.rows| ==>
               Get(g, i, "taxasMarketplace") ==
               Some(Num(NumeroDe(Get(h, i, "taxaComissao")) + NumeroDe(Get(h, i, "taxaServico")) + NumeroDe(Get(h, i, "taxaTransacao"))))
    ensures forall i :: 0 <= i < |g.rows| ==> Get(g, i, "taxasMarketplace") == Some(Num(Taxas(f, i, parse)))
  {
  }

  lemma CuponsPreparados(f: Frame, h: Frame, g: Frame, parse: string -> Option<real>)
    requires WellFormed(f) && WellFormed(h) && WellFormed(g) && |h.rows| == |f.rows| && |g.rows| == |h.rows|
    requires forall i :: 0 <= i < |h.rows| ==>
               NumeroDe(Get(h, i, "cupomVendedor")) + NumeroDe(Get(h, i, "cupomShopee")) + NumeroDe(Get(h, i, "reembolsoShopee"))
               == Cupons(f, i, parse)
    requires forall i :: 0 <= i < |g.rows| ==>
               Get(g, i, "totalCupons") ==
               Some(Num(NumeroDe(Get(h, i, "cupomVendedor")) + NumeroDe(Get(h, i, "cupomShopee")) + NumeroDe(Get(h, i, "reembolsoShopee"))))
    ensures forall i :: 0 <= i < |g.rows| ==> Get(g, i, "totalCupons") == Some(Num(Cupons(f, i, parse)))
  {
  }

  /** Adding the derived columns leaves the coerced ones as they were. */
  lemma AgregadosPreservamNumericas(f: Frame, h: Frame, g: Frame, parse: string -> Option<real>)
    requires WellFormed(f) && WellFormed(h) && WellFormed(g) && |h.rows| == |f.rows| && |g.rows| == |h.rows|
    requires forall c, i {:trigger Get(h, i, c)} :: c in ColunasNumericas && 0 <= i < |h.rows| ==>
               Get(h, i, c) == Some(Num(ValorNumerico(Get(f, i, c), parse)))
    requires forall n, i {:trigger Get(g, i, n)} :: n != "taxasMarketplace" && n != "totalCupons" && 0 <= i < |g.rows| ==>
               Get(g, i, n) == Get(h, i, n)
    ensures forall c, i {:trigger Get(g, i, c)} :: c in ColunasNumericas && 0 <= i < |g.rows| ==>
              Get(g, i, c) == Some(Num(ValorNumerico(Get(f, i, c), parse)))
  {
    assert "taxasMarketplace" !in ColunasNumericas && "totalCupons" !in ColunasNumericas;
    forall c, i | c in ColunasNumericas && 0 <= i < |g.rows|
      ensures Get(g, i, c) == Some(Num(ValorNumerico(Get(f, i, c), parse)))
    {
      assert Get(g, i, c) == Get(h, i, c);
    }
  }

  /** On the coerced columns, the two sums are those of the original cells' values. */
  lemma SomasConvertidas(f: Frame, h: Frame, parse: string -> Option<real>)
    requires WellFormed(f) && WellFormed(h) && |h.rows| == |f.rows|
    requires forall c, i {:trigger Get(h, i, c)} :: c in ColunasNumericas && 0 <= i < |h.rows| ==>
               Get(h, i, c) == Some(Num(ValorNumerico(Get(f, i, c), parse)))
    ensures forall i :: 0 <= i < |h.rows| ==>
              NumeroDe(Get(h, i, "taxaComissao")) + NumeroDe(Get(h, i, "taxaServico")) + NumeroDe(Get(h, i, "taxaTransacao"))
              == Taxas(f, i, parse)
    ensures forall i :: 0 <= i < |h.rows| ==>
              NumeroDe(Get(h, i, "cupomVendedor")) + NumeroDe(Get(h, i, "cupomShopee")) + NumeroDe(Get(h, i, "reembolsoShopee"))
              == Cupons(f, i, parse)
  {
    assert "taxaComissao" in ColunasNumericas && "taxaServico" in ColunasNumericas && "taxaTransacao" in ColunasNumericas;
    assert "cupomVendedor" in ColunasNumericas && "cupomShopee" in ColunasNumericas && "reembolsoShopee" in ColunasNumericas;
  }

  /** The loop at lines 59-62 over all numeric columns. */
  method ConverterNumericas(f: Frame, parse: string -> Option<real>) returns (g: Frame)
    requires WellFormed(f)
    ensures WellFormed(g) && |g.rows| == |f.rows|
    ensures forall c, i {:trigger Get(g, i, c)} :: c in ColunasNumericas && 0 <= i < |g.rows| ==>
              Get(g, i, c) == Some(Num(ValorNumerico(Get(f, i, c), parse)))
    ensures forall n, i {:trigger Get(g, i, n)} :: n !in ColunasNumericas && 0 <= i < |g.rows| ==> Get(g, i, n) == Get(f, i, n)
  {
    g := f;
    for k := 0 to |ColunasNumericas|
      invariant WellFormed(g) && |g.rows| == |f.rows|
      invariant forall j, i :: 0 <= j < k && 0 <= i < |g.rows| ==>
                  Get(g, i, ColunasNumericas[j]) == Some(Num(ValorNumerico(Get(f, i, ColunasNumericas[j]), parse)))
      invariant forall n, i {:trigger Get(g, i, n)} :: n !in ColunasNumericas[..k] && 0 <= i < |g.rows| ==> Get(g, i, n) == Get(f, i, n)
    {
      var col := ColunasNumericas[k];
      var g0 := g;
      g := ConverterColuna(g, col, parse);
      assert ColunasNumericas[..k + 1] == ColunasNumericas[..k] + [col];
      assert col !in ColunasNumericas[..k];
      forall j, i | 0 <= j < k + 1 && 0 <= i < |g.rows|
        ensures Get(g, i, ColunasNumericas[j]) == Some(Num(ValorNumerico(Get(f, i, ColunasNumericas[j]), parse)))
      {
        if j < k {
          assert ColunasNumericas[j] in ColunasNumericas[..k];
          assert Get(g, i, ColunasNumericas[j]) == Get(g0, i, ColunasNumericas[j]);
        }
      }
    }
    assert ColunasNumericas[..|ColunasNumericas|] == ColunasNumericas;
    forall c, i | c in ColunasNumericas && 0 <= i < |g.rows|
      ensures Get(g, i, c) == Some(Num(ValorNumerico(Get(f, i, c), parse)))
    {
      var j :| 0 <= j < |ColunasNumericas| && ColunasNumericas[j] == c;
    }
  }

  /** `df[dest] = df[a] + df[b] + df[c]` over coerced columns; no other column changes. */
  method AdicionarSoma(h: Frame, dest: string, a: string, b: string, c: string) returns (g: Frame)
    requires WellFormed(h)
    ensures WellFormed(g) && |g.rows| == |h.rows|
    ensures forall i :: 0 <= i < |g.rows| ==>
              Get(g, i, dest) == Some(Num(NumeroDe(Get(h, i, a)) + NumeroDe(Get(h, i, b)) + NumeroDe(Get(h, i, c))))
    ensures forall n, i {:trigger Get(g, i, n)} :: n != dest && 0 <= i < |g.rows| ==> Get(g, i, n) == Get(h, i, n)
  {
    g := SetColumn(h, dest, Soma3(h, a, b, c));
  }

  /** Lines 63-64: `taxasMarketplace` and `totalCupons` as the sums of the coerced columns. */
  method AdicionarAgregados(h: Frame) returns (g: Frame)
    requires WellFormed(h)
    ensures WellFormed(g) && |g.rows| == |h.rows|
    ensures forall i :: 0 <= i < |g.rows| ==>
              Get(g, i, "taxasMarketplace") ==
              Some(Num(NumeroDe(Get(h, i, "taxaComissao")) + NumeroDe(Get(h, i, "taxaServico")) + NumeroDe(Get(h, i, "taxaTransacao"))))
    ensures forall i :: 0 <= i < |g.rows| ==>
              Get(g, i, "totalCupons") ==
              Some(Num(NumeroDe(Get(h, i, "cupomVendedor")) + NumeroDe(Get(h, i, "cupomShopee")) + NumeroDe(Get(h, i, "reembolsoShopee"))))
    ensures forall n, i {:trigger Get(g, i, n)} :: n != "taxasMarketplace" && n != "totalCupons" && 0 <= i < |g.rows| ==> Get(g, i, n) == Get(h, i, n)
  {
    var g1 := AdicionarSoma(h, "taxasMarketplace", "taxaComissao", "taxaServico", "taxaTransacao");
    assert |"cupomVendedor"| == 13 && |"cupomShopee"| == 11 && |"reembolsoShopee"| == 15 && |"taxasMarketplace"| == 16;
    g := AdicionarSoma(g1, "totalCupons", "cupomVendedor", "cupomShopee", "reembolsoShopee");
    forall i | 0 <= i < |g.rows|
      ensures Get(g, i, "totalCupons") ==
              Some(Num(NumeroDe(Get(h, i, "cupomVendedor")) + NumeroDe(Get(h, i, "cupomShopee")) + NumeroDe(Get(h, i, "reembolsoShopee"))))
    {
      assert Get(g1, i, "cupomVendedor") == Get(h, i, "cupomVendedor");
      assert Get(g1, i, "cupomShopee") == Get(h, i, "cupomShopee");
      assert Get(g1, i, "reembolsoShopee") == Get(h, i, "reembolsoShopee");
    }
  }

  // ---- the typed view read by the reconciliation loop ----

  /** A text field as `venda.get(col)` yields it: missing column (None), NaN, or a string. */
  datatype Campo = Ausente | Nan | Str(s: string)

  predicate NaoNumerico(o: Option<Cell>) {
    o.None? || !o.value.Num?
  }

  function CampoTexto(o: Option<Cell>): Campo
    requires NaoNumerico(o)
  {
    if o.None? then Ausente else if o.value.Blank? then Nan else Str(o.value.s)
  }

  /** One row of `df_vendas` as the import reads it. */
  datatype Venda = Venda(
    pedidoId: Campo,
    dataPedido: Campo,
    skuVenda: Campo,
    quantidade: real,
    receitaBrutaProduto: real,
    taxasMarketplace: real,
    totalCupons: real)

  /** The frame's text fields hold no numbers (true of every frame read with `dtype=str`). */
  predicate TextoIntacto(f: Frame) {
    && WellFormed(f)
    && forall i :: 0 <= i < |f.rows| ==>
         NaoNumerico(Get(f, i, "pedidoId")) && NaoNumerico(Get(f, i, "dataPedido")) && NaoNumerico(Get(f, i, "skuVenda"))
  }

  lemma RawTextoIntacto(f: Frame)
    requires RawFrame(f)
    ensures RawFrame(Normalizar(f)) && TextoIntacto(Normalizar(f))
  {
  }

  /** `df_vendas.iterrows()` on the prepared frame. */
  function Vendas(g: Frame): (vs: seq<Venda>)
    requires TextoIntacto(g)
    ensures |vs| == |g.rows|
  {
    seq(|g.rows|, i requires 0 <= i < |g.rows| =>
      Venda(CampoTexto(Get(g, i, "pedidoId")), CampoTexto(Get(g, i, "dataPedido")), CampoTexto(Get(g, i, "skuVenda")),
            NumeroDe(Get(g, i, "quantidade")), NumeroDe(Get(g, i, "receitaBrutaProduto")),
            NumeroDe(Get(g, i, "taxasMarketplace")), NumeroDe(Get(g, i, "totalCupons"))))
  }

  /** What each prepared row holds, stated directly on the renamed frame. */
  function VendasDe(f: Frame, parse: string -> Option<real>): (vs: seq<Venda>)
    requires TextoIntacto(f)
    ensures |vs| == |f.rows|
  {
    seq(|f.rows|, i requires 0 <= i < |f.rows| =>
      Venda(CampoTexto(Get(f, i, "pedidoId")), CampoTexto(Get(f, i, "dataPedido")), CampoTexto(Get(f, i, "skuVenda")),
            ValorNumerico(Get(f, i, "quantidade"), parse), ValorNumerico(Get(f, i, "receitaBrutaProduto"), parse),
            Taxas(f, i, parse), Cupons(f, i, parse)))
  }

  /** The rows the import iterates over are exactly `VendasDe` of the renamed frame. */
  lemma PreparadasSaoVendasDe(f: Frame, g: Frame, parse: string -> Option<real>)
    requires TextoIntacto(f) && WellFormed(g) && |g.rows| == |f.rows|
    requires forall c, i :: c in ColunasNumericas && 0 <= i < |g.rows| ==>
               Get(g, i, c) == Some(Num(ValorNumerico(Get(f, i, c), parse)))
    requires forall i :: 0 <= i < |g.rows| ==> Get(g, i, "taxasMarketplace") == Some(Num(Taxas(f, i, parse)))
    requires forall i :: 0 <= i < |g.rows| ==> Get(g, i, "totalCupons") == Some(Num(Cupons(f, i, parse)))
    requires forall n, i :: n !in ColunasNumericas && n != "taxasMarketplace" && n != "totalCupons" && 0 <= i < |g.rows| ==>
               Get(g, i, n) == Get(f, i, n)
    ensures TextoIntacto(g) && Vendas(g) == VendasDe(f, parse)
  {
    assert "quantidade" in ColunasNumericas && "receitaBrutaProduto" in ColunasNumericas;
    assert "pedidoId" !in ColunasNumericas && "dataPedido" !in ColunasNumericas && "skuVenda" !in ColunasNumericas;
    forall i | 0 <= i < |g.rows|
      ensures Get(g, i, "pedidoId") == Get(f, i, "pedidoId")
      ensures Get(g, i, "dataPedido") == Get(f, i, "dataPedido")
      ensures Get(g, i, "skuVenda") == Get(f, i, "skuVenda")
    {
    }
    assert TextoIntacto(g);
    forall i | 0 <= i < |g.rows| ensures Vendas(g)[i] == VendasDe(f, parse)[i] {
      assert Get(g, i, "quantidade") == Some(Num(ValorNumerico(Get(f, i, "quantidade"), parse)));
      assert Get(g, i, "receitaBrutaProduto") == Some(Num(ValorNumerico(Get(f, i, "receitaBrutaProduto"), parse)));
    }
  }

  /** The fields the import reads after renaming. */
  const CamposLidos: set<string> := {
    "pedidoId", "dataPedido", "skuVenda", "quantidade", "receitaBrutaProduto", "taxaComissao",
    "taxaServico", "taxaTransacao", "cupomVendedor", "cupomShopee", "reembolsoShopee"
  }

  /** Two frames that agree on every field read give the same typed rows. */
  lemma {:induction false} MesmosCamposMesmasVendas(a: Frame, f: Frame, parse: string -> Option<real>)
    requires TextoIntacto(f) && WellFormed(a) && |a.rows| == |f.rows|
    requires forall i, n {:trigger Get(a, i, n)} :: 0 <= i < |a.rows| && n in CamposLidos ==> Get(a, i, n) == Get(f, i, n)
    ensures TextoIntacto(a) && VendasDe(a, parse) == VendasDe(f, parse)
  {
    forall i | 0 <= i < |a.rows|
      ensures NaoNumerico(Get(a, i, "pedidoId")) && NaoNumerico(Get(a, i, "dataPedido")) && NaoNumerico(Get(a, i, "skuVenda"))
    {
      assert Get(a, i, "pedidoId") == Get(f, i, "pedidoId");
      assert Get(a, i, "dataPedido") == Get(f, i, "dataPedido");
      assert Get(a, i, "skuVenda") == Get(f, i, "skuVenda");
    }
    forall i | 0 <= i < |a.rows| ensures VendasDe(a, parse)[i] == VendasDe(f, parse)[i] {
      MesmaVenda(a, f, i, parse);
    }
  }

  lemma MesmaVenda(a: Frame, f: Frame, i: nat, parse: string -> Option<real>)
    requires TextoIntacto(f) && TextoIntacto(a) && |a.rows| == |f.rows| && i < |a.rows|
    requires forall n {:trigger Get(a, i, n)} :: n in CamposLidos ==> Get(a, i, n) == Get(f, i, n)
    ensures VendasDe(a, parse)[i] == VendasDe(f, parse)[i]
  {
    assert Get(a, i, "pedidoId") == Get(f, i, "pedidoId");
    assert Get(a, i, "dataPedido") == Get(f, i, "dataPedido");
    assert Get(a, i, "skuVenda") == Get(f, i, "skuVenda");
    assert Get(a, i, "quantidade") == Get(f, i, "quantidade");
    assert Get(a, i, "receitaBrutaProduto") == Get(f, i, "receitaBrutaProduto");
    assert Taxas(a, i, parse) == Taxas(f, i, parse) by {
      assert Get(a, i, "taxaComissao") == Get(f, i, "taxaComissao");
      assert Get(a, i, "taxaServico") == Get(f, i, "taxaServico");
      assert Get(a, i, "taxaTransacao") == Get(f, i, "taxaTransacao");
    }
    assert Cupons(a, i, parse) == Cupons(f, i, parse) by {
      assert Get(a, i, "cupomVendedor") == Get(f, i, "cupomVendedor");
      assert Get(a, i, "cupomShopee") == Get(f, i, "cupomShopee");
      assert Get(a, i, "reembolsoShopee") == Get(f, i, "reembolsoShopee");
    }
  }

  /** Dropping a column whose name the import does not read leaves the typed rows as they were. */
  lemma RemoverCampoNaoLido(f: Frame, j: nat, parse: string -> Option<real>)
    requires TextoIntacto(f) && j < |f.columns| && f.columns[j] !in CamposLidos
    ensures TextoIntacto(RemoveColumn(f, j)) && VendasDe(RemoveColumn(f, j), parse) == VendasDe(f, parse)
  {
    var b := RemoveColumn(f, j);
    assert forall i, n {:trigger Get(b, i, n)} :: 0 <= i < |b.rows| && n in CamposLidos ==> Get(b, i, n) == Get(f, i, n);
    MesmosCamposMesmasVendas(b, f, parse);
  }

  /** Trimming and renaming commute with dropping a column. */
  lemma NormalizarRemove(raw: Frame, j: nat)
    requires WellFormed(raw) && j < |raw.columns|
    ensures Normalizar(RemoveColumn(raw, j)) == RemoveColumn(Normalizar(raw), j)
  {
    MapearRemove(raw.columns, Cabecalho, j);
  }

  /**
   * A header that, once stripped and renamed (`Normalizar(raw).columns[j]`, which is
   * `Renomear(Strip(raw.columns[j]))`), names no field the import reads plays no role:
   * dropping its column leaves every row the import sees unchanged.
   */
  lemma ColunaIrrelevante(raw: Frame, j: nat, parse: string -> Option<real>)
    requires RawFrame(raw) && j < |raw.columns|
    requires Normalizar(raw).columns[j] !in CamposLidos
    ensures RawFrame(RemoveColumn(raw, j))
    ensures TextoIntacto(Normalizar(RemoveColumn(raw, j)))
    ensures VendasDe(Normalizar(RemoveColumn(raw, j)), parse) == VendasDe(Normalizar(raw), parse)
  {
    RawRemoveColumn(raw, j);
    RawTextoIntacto(raw);
    NormalizarRemove(raw, j);
    RemoverCampoNaoLido(Normalizar(raw), j, parse);
  }
}
