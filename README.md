# ControleFinanceiroE-commerce: a Dafny model of its core

ControleFinanceiroE-commerce is a small Streamlit application for a marketplace seller.
It has four parts:

- **Catalog.** An operator keeps categories, parent products ("produtos pai", a kit with a
  unit cost, a kit size and a supplies cost) and variations (the SKUs sold, each linked to a
  parent product).
- **Import.** A Shopee sales export is uploaded, its headers are normalised, its numeric
  columns are coerced and summed into fees and coupons, and every row is reconciled against
  the ledger and the catalog. A row is a duplicate (its order id is already stored),
  resolved (its SKU has a kit cost), or pending (its SKU is put on a "missing SKU" list
  that the same page lets the operator register). The resolved rows are priced and written
  to the `lancamentos_vendas` ledger in one transaction.
- **Dashboard.** It joins the ledger with variations, parent products and categories,
  filters by platform, category and period, and shows revenue, spend, profit and the
  order count.
- **Reports.** Over the same join and filters, they group the rows by product group (the
  variation name cut at its first " - " or " <digit>") and category, sum the units and the
  product spend, and sort by units, highest first.

The model is split into these modules:

- `Wrappers`: Option and Result.
- `Text`: Python's `strip`.
- `Schema`: the four tables and their keys.
- `CostResolver`: `utils/helpers.py`.
- `Frames` and `Normalizacao`: the spreadsheet as pandas holds it, and lines 10-64 of the
  import page.
- `Ledger`: the sales table and its UNIQUE order id.
- `Cadastros`: the catalog forms.
- `ImportarVendas`: reconciliation, pricing, the whole import, the missing-SKU list.
- `Consultas`: the joins and filters the dashboard and the reports share.
- `Dashboard` and `Relatorios`: the two pages.

State the source changes in place is a class: the catalog (`Cadastros.Catalog`), the ledger
(`Ledger.LedgerStore`) and the page session (`ImportarVendas.SessaoImportacao`). Its methods
carry `modifies` clauses and state the whole new state. Pure pandas computations are
functions, each related to a reference definition by lemmas. The loops of the import page
are methods (`Reconciliar`, `MontarLote`, `ConverterNumericas`, `ContemRepetidos`). Each is
proved equal to the specification function the lemmas are about.

Several things reach the model only as parameters: money is a Dafny `real`;
`pd.to_numeric` and `pd.to_datetime` are parsers passed in (`parse`, `parseDate`); and the
database, the spreadsheet reader and the clock are the maps, sequences and frames handed to
each operation.

## Model

| member | source | states |
|---|---|---|
| CostResolver.PaiDe | utils/helpers.py:9-11 | a parent id is found exactly when the SKU is registered and its link is set and non-empty, and it is that link |
| CostResolver.CalcularCusto | utils/helpers.py:5-18 | no cost exactly when the SKU has no variation, no or an empty link, or a link to a missing parent; otherwise `custoUnidade * quantidadeKit + custoInsumos` of that parent |
| CostResolver.SameParentSameCost | utils/helpers.py:13-17 | two variations with the same parent link cost the same |
| CostResolver.ResolvesIffLinked | utils/helpers.py:9-15 | a SKU resolves if and only if it is registered with a non-empty link to an existing parent |
| CostResolver.RegisteredSkuResolves | utils/helpers.py:9-17 | registering a SKU under an existing non-empty parent makes it resolve to that parent's kit cost |
| CostResolver.CascadePreservesOtherCosts | pages/cadastrosGerais.py:156-157 | deleting a parent with its variations leaves every other SKU's cost unchanged; the deleted SKUs no longer resolve |
| Text.TrimStart | pages/importarVendas.py:29 | the result is a suffix, everything cut is whitespace, and it does not start with whitespace |
| Text.TrimEnd | pages/importarVendas.py:29 | the result is a prefix, everything cut is whitespace, and it does not end with whitespace |
| Text.Strip | pages/importarVendas.py:29 | the result is no longer than the input and neither starts nor ends with whitespace; that only the leading and trailing whitespace is cut is the contract of `StripIsInfix` |
| Text.BlankIffAllSpace | pages/cadastrosGerais.py:23 | a name is refused as blank if and only if all of its characters are whitespace |
| Text.StripIdempotent | pages/cadastrosGerais.py:26-29 | stripping a stored name again leaves it unchanged |
| Text.StripIsInfix | pages/importarVendas.py:29 | the stripped text is a contiguous slice of the original, and everything before and after that slice is whitespace |
| Schema.InvalidKeywords | database.py:40-53 | a constructor keyword is refused if and only if it names no declared column of `lancamentos_vendas` (the real test is "no attribute of `LancamentosVendas`"; of the importer's keywords that is exactly the undeclared column) |
| Schema.PedidoIds | pages/importarVendas.py:66 | the set holds an order id if and only if some row carries it |
| Schema.DistinctOrdersVsItems | database.py:44 | distinct order ids never outnumber the rows, and equal them if and only if the ids are unique |
| Frames.IndexOf | pages/importarVendas.py:69 | a column is found exactly when present, at its first position |
| Frames.IndexOfAppend | pages/importarVendas.py:61 | appending a new column moves no other column |
| Frames.SetColumn | pages/importarVendas.py:61-64 | after `df[name] = values` every row holds its value under `name` and every other column is unchanged |
| Frames.IndexOfRemove | pages/importarVendas.py:58 | removing a header shifts the later positions down by one and keeps the others |
| Frames.RemoveColumn | pages/importarVendas.py:58 | dropping one column keeps every other column of every row |
| Frames.RawRemoveColumn | pages/importarVendas.py:28 | a frame as read (text and empty cells only) stays one when a column is dropped |
| Normalizacao.DetectarPlataforma | pages/importarVendas.py:10-14 | "Shopee" if and only if the three Shopee headers are all present, otherwise no platform |
| Normalizacao.IndicePlataforma | pages/importarVendas.py:38-40 | the select box starts on the detected platform when it is listed, else on "Outra" (index 3) |
| Normalizacao.PreSelecao | pages/importarVendas.py:31-40 | the preselected option is "Shopee" exactly for a Shopee export, "Outra" otherwise |
| Normalizacao.EntreAparados | pages/importarVendas.py:29 | a name is among the trimmed headers exactly when some header trims to it |
| Normalizacao.PreSelecaoAposAparar | pages/importarVendas.py:29-40 | detection runs on the trimmed headers: "Shopee" is preselected exactly when each Shopee header is, once trimmed, a header of the sheet, so " ID do pedido " still counts |
| Normalizacao.MapaColunasInjetivo | pages/importarVendas.py:42-49 | no two export headers are renamed to the same field |
| Normalizacao.Renomear | pages/importarVendas.py:58 | `rename(columns=mapa_colunas)` on one header: a mapped header becomes its field and any other keeps its name; `MapaColunasInjetivo` states the map is one-to-one |
| Normalizacao.NormalizarCabecalhos | pages/importarVendas.py:29 | each header is stripped and then renamed through the header map, position by position |
| Normalizacao.Normalizar | pages/importarVendas.py:58 | the rows and the column count are kept, the frame stays rectangular, and each header is the one trimmed at line 29 then renamed |
| Normalizacao.ParaNumero | pages/importarVendas.py:62 | `to_numeric(errors='coerce').fillna(0)` of one cell: empty is 0, text is its parsed value or 0 when unparsable, a number stays; `ColunaConvertida` states it row by row |
| Normalizacao.ColunaConvertida | pages/importarVendas.py:62 | each row's coerced value is its cell parsed as a number, 0 when empty or unparsable |
| Normalizacao.Soma3 | pages/importarVendas.py:63-64 | each row's value is the sum of its three coerced cells |
| Normalizacao.ConverterColuna | pages/importarVendas.py:60-62 | a missing column is created as 0, then coerced; no other column changes |
| Normalizacao.ConverterNumericas | pages/importarVendas.py:59-62 | after the loop every numeric column holds the coerced value of the original cell (0 when the column was missing); the other columns are unchanged |
| Normalizacao.AdicionarSoma | pages/importarVendas.py:63-64 | the destination column holds, row by row, the sum of the three coerced cells; no other column changes |
| Normalizacao.AdicionarAgregados | pages/importarVendas.py:63-64 | `taxasMarketplace` and `totalCupons` hold the three-term sums; nothing else changes |
| Normalizacao.PrepararVendas | pages/importarVendas.py:58-64 | every numeric field ends up as the coerced original cell, the fees and coupons are the sums of the coerced parts, and all other columns are as read |
| Normalizacao.Preparado | pages/importarVendas.py:59-64 | composing coercion and aggregation gives the fees and coupons as sums of the original cells' values |
| Normalizacao.TaxasPreparadas | pages/importarVendas.py:63 | the fees column is the sum of the three coerced fee cells |
| Normalizacao.CuponsPreparados | pages/importarVendas.py:64 | the coupons column is the sum of the three coerced coupon cells |
| Normalizacao.AgregadosPreservamNumericas | pages/importarVendas.py:63-64 | adding the derived columns leaves every numeric column as coerced |
| Normalizacao.SomasConvertidas | pages/importarVendas.py:62-64 | the derived sums read the parsed values of the original cells |
| Normalizacao.RawTextoIntacto | pages/importarVendas.py:28 | every cell of a frame as read is text or empty |
| Normalizacao.PreparadasSaoVendasDe | pages/importarVendas.py:58-69 | the typed rows read from the prepared frame are the rows computed directly from the raw frame |
| Normalizacao.MesmosCamposMesmasVendas | pages/importarVendas.py:69 | two frames that agree on the fields the loop reads give the same rows |
| Normalizacao.MesmaVenda | pages/importarVendas.py:69 | one row depends only on the fields the loop reads |
| Normalizacao.RemoverCampoNaoLido | pages/importarVendas.py:51-58 | dropping a column the loop does not read changes no typed row |
| Normalizacao.NormalizarRemove | pages/importarVendas.py:29 | header normalisation commutes with dropping a column |
| Normalizacao.ColunaIrrelevante | pages/importarVendas.py:42-69 | an extra export column whose header maps to no field read changes no row the import sees |
| Ledger.LedgerStore.PedidosExistentes | pages/importarVendas.py:66 | the snapshot holds exactly the stored order ids |
| Ledger.AceitaLote | database.py:44 | a batch commits exactly when the stored rows followed by the batch keep `pedidoId` unique; `PedidoRepetidoRejeitado`, `PedidoExistenteRejeitado` and `NovosDistintosAceitos` state the cases |
| Ledger.LedgerStore.Commit | pages/importarVendas.py:86-87 | the batch is stored in order exactly when the order ids stay unique, else nothing is stored; the UNIQUE invariant is kept |
| Ledger.ContemRepetidos | database.py:44 | true if and only if some order id occurs twice |
| Ledger.PedidoRepetidoRejeitado | database.py:44 | a batch that repeats an order id never commits |
| Ledger.PedidoExistenteRejeitado | database.py:44 | a batch that reuses a stored order id never commits |
| Ledger.AceitoPedidosIgualItens | pages/importarVendas.py:83-88 | a committed batch has unique ids, so it reports as many orders as items |
| Ledger.NovosDistintosAceitos | database.py:44 | fresh, pairwise distinct ids always commit on a valid ledger |
| Cadastros.SemVariacoesDe | pages/cadastrosGerais.py:156 | keeps exactly the variations not linked to the deleted parent, unchanged |
| Cadastros.RenameKeepsNamesUnique | database.py:16 | renaming a category to a name no other category holds keeps names unique and ids keyed |
| Cadastros.Catalog.constructor | database.py:13-38 | an empty catalog satisfies every key and uniqueness invariant |
| Cadastros.Catalog.AddCategoria | pages/cadastrosGerais.py:21-32 | a blank name is refused, a name held after stripping is refused, otherwise exactly one category with the stripped name is added under a fresh id |
| Cadastros.Catalog.EditCategoria | pages/cadastrosGerais.py:41-50 | a blank name is refused; a name held by another category violates UNIQUE and nothing changes; otherwise only that category is renamed to the stripped name |
| Cadastros.Catalog.DeleteCategoria | pages/cadastrosGerais.py:59-66 | without confirmation nothing changes; with it exactly that category is removed |
| Cadastros.Catalog.AddProduto | pages/cadastrosGerais.py:92-109 | a blank id or name is refused, an existing id is refused, otherwise exactly that product is added with the stripped id and name |
| Cadastros.Catalog.EditProduto | pages/cadastrosGerais.py:132-145 | a blank name is refused, otherwise only that product's fields are replaced |
| Cadastros.Catalog.DeleteProduto | pages/cadastrosGerais.py:154-162 | with confirmation the product and every variation linked to it are removed; without it nothing changes |
| Cadastros.Catalog.AddVariacao | pages/cadastrosGerais.py:182-193 | a blank SKU or name is refused, an existing SKU is refused, otherwise exactly that variation is added, stripped and linked |
| Cadastros.Catalog.EditVariacao | pages/cadastrosGerais.py:202-211 | a blank name is refused, otherwise only that variation's name changes |
| Cadastros.Catalog.DeleteVariacao | pages/cadastrosGerais.py:220-227 | with confirmation exactly that variation is removed; without it nothing changes |
| ImportarVendas.Chave | pages/importarVendas.py:69 | a text order id keys as itself |
| ImportarVendas.CustoDaVenda | pages/importarVendas.py:71 | a row with a text SKU costs what the resolver gives; a row without one has no cost |
| ImportarVendas.Resolvidas | pages/importarVendas.py:72 | holds exactly the rows that are new and resolve, and no more rows than the file |
| ImportarVendas.ContaDuplicadas | pages/importarVendas.py:70 | at most one per row |
| ImportarVendas.ContaPendentes | pages/importarVendas.py:72-73 | at most one per row |
| ImportarVendas.Pendentes | pages/importarVendas.py:73 | the list has no repeats and holds only truthy SKU cells |
| ImportarVendas.Reconciliar | pages/importarVendas.py:65-73 | the loop returns exactly the resolved rows, the missing-SKU list and the duplicate count the reference definitions give |
| ImportarVendas.Conservacao | pages/importarVendas.py:68-73 | duplicates, resolved and unresolved rows add up to the number of rows |
| ImportarVendas.PendentesExatos | pages/importarVendas.py:73 | a SKU is listed if and only if some new, unresolved row carries it as a truthy cell |
| ImportarVendas.PendentesPrefixo | pages/importarVendas.py:73 | the list grows only by appending: each prefix's list is a prefix of the final one |
| ImportarVendas.ResolvidasSaoNovas | pages/importarVendas.py:70-72 | every resolved row has a new order id and a cost |
| ImportarVendas.TruncToInt | pages/importarVendas.py:84 | `int()` truncates toward zero |
| ImportarVendas.MontarLancamento | pages/importarVendas.py:78-84 | a row is built exactly when its id and date are present and the date parses, with the net value and profit of lines 79-82; a missing id column fails first |
| ImportarVendas.LancamentoConsistente | pages/importarVendas.py:79-84 | for a whole quantity the stored profit is revenue less product cost, fees and coupons |
| ImportarVendas.MontarTodos | pages/importarVendas.py:75-84 | the batch succeeds exactly when every row builds, and it is then those rows in order |
| ImportarVendas.MontarTodosFalhaPrefixo | pages/importarVendas.py:77-84 | the first failing row decides the error |
| ImportarVendas.MontarTodosPasso | pages/importarVendas.py:77-84 | one more row extends the batch by its entry or fails with its error |
| ImportarVendas.PassoLote | pages/importarVendas.py:75-84 | one pass of the loop extends the batch by the row's entry and adds its order id, or ends the whole batch with the row's error |
| ImportarVendas.MontarLote | pages/importarVendas.py:75-84 | the loop builds the reference batch, and `pedidos_unicos` is the set of its order ids |
| ImportarVendas.Importar | pages/importarVendas.py:65-90 | the import with the `plataforma` column declared: the reconciled rows are built, and the batch is committed unless it repeats an order id; `ImportarSucesso`, `MultiItemFalha`, `NadaResolvidoNadaSalvo` and `Reimportacao` carry its contract |
| ImportarVendas.ImportarSucesso | pages/importarVendas.py:65-90 | a successful import stores one row per resolved sale, all under fresh ids and the selected platform, keeps ids unique, reports orders equal to items, and accounts for every row |
| ImportarVendas.MultiItemFalha | pages/importarVendas.py:83-87 | two resolved items of one order make the whole import fail |
| ImportarVendas.NadaResolvidoNadaSalvo | pages/importarVendas.py:86 | when nothing resolves nothing is written |
| ImportarVendas.NadaNovoNaReimportacao | pages/importarVendas.py:66-72 | with every earlier id now stored, no row resolves again and each counts as a duplicate |
| ImportarVendas.Reimportacao | pages/importarVendas.py:65-89 | importing the same file right after a successful import saves nothing and reports the saved items as duplicates |
| ImportarVendas.PlataformaNaoDeclarada | pages/importarVendas.py:84 | of the keywords the importer passes, exactly `plataforma` is not a declared column |
| ImportarVendas.ComoEscritoNadaGrava | pages/importarVendas.py:84 | an import as written that succeeds stores no row |
| ImportarVendas.ImportarComoEscrito | pages/importarVendas.py:65-90 | the import as written, where building a ledger row with `plataforma=` raises TypeError; `ComoEscritoNuncaSalva` and `ComoEscritoNadaGrava` carry its contract |
| ImportarVendas.ComoEscritoNuncaSalva | pages/importarVendas.py:84 | as written, any import with a resolved sale fails |
| ImportarVendas.ExemploPlataforma | database.py:40-53 | one Shopee sale: the importer as written fails with TypeError; the corrected one stores the row with its computed values |
| ImportarVendas.ExemploResolvido | utils/helpers.py:17 | the example sale is new, its SKU costs 3.0 * 1 + 0.5, and it is the one sale resolved |
| ImportarVendas.ExemploLinha | pages/importarVendas.py:79-84 | the example sale builds its row with net value 8.0 and profit 4.5 |
| ImportarVendas.LerVendas | pages/importarVendas.py:28-64 | the rows the loop iterates are the reference rows of the uploaded sheet |
| ImportarVendas.RemoverPrimeiro | pages/importarVendas.py:132 | removes one occurrence when present and nothing else; on a list without repeats the value is gone |
| ImportarVendas.SessaoImportacao.constructor | pages/importarVendas.py:17 | the missing-SKU list starts empty |
| ImportarVendas.SessaoImportacao.ProcessarVendas | pages/importarVendas.py:21-23 | the report is the import's, the ledger grows by the batch on success and is untouched on failure, and the list is cleared, then set to the import's list on success |
| ImportarVendas.SessaoImportacao.CadastrarSkuFaltante | pages/importarVendas.py:121-133 | an empty name or an existing SKU is refused; otherwise exactly that variation is added and the SKU leaves the list |
| ImportarVendas.CadastroResolveSku | pages/importarVendas.py:129-132 | after "Salvar SKU" the SKU resolves to its parent's kit cost and is no longer listed |
| Consultas.Enriquecer | pages/dashboard.py:25-27 | a joined row carries its ledger row unchanged |
| Consultas.EnriquecerCasa | pages/dashboard.py:25-27 | a joined row matches on SKU, parent id and category id |
| Consultas.JuncaoPorChave | pages/relatorios.py:24-28 | a row joins with exactly the catalog entries its keys match, so the join is the inner join on those keys |
| Consultas.VendasDe | pages/dashboard.py:41 | one ledger row per joined row, in order |
| Consultas.Juntar | pages/dashboard.py:25-27 | no more rows than the ledger; a row is kept if and only if it is the join of some ledger row |
| Consultas.JuntarDescarta | pages/dashboard.py:25-27 | a ledger row that matches nothing is dropped |
| Consultas.JuntarMantem | pages/dashboard.py:25-27 | a ledger row that matches is kept |
| Consultas.JuntarPreservaUnicos | pages/dashboard.py:25-27 | joining keeps order ids unique and adds none |
| Consultas.Filtrar | pages/dashboard.py:42-46 | keeps exactly the rows the predicate accepts |
| Consultas.FiltrarPreservaUnicos | pages/dashboard.py:42-46 | filtering keeps order ids unique and adds none |
| Consultas.FiltrarPlataforma | pages/dashboard.py:42 | an empty selection keeps all rows; otherwise exactly the rows of a selected platform |
| Consultas.FiltrarCategoria | pages/dashboard.py:43 | an empty selection keeps all rows; otherwise exactly the rows whose product is in a selected category |
| Consultas.FiltrarPeriodo | pages/dashboard.py:44-46 | a period that is not two dates keeps all rows; otherwise exactly the rows whose order day lies in it, both ends included |
| Consultas.FiltrosCombinados | pages/relatorios.py:42-47 | a row survives the three filters if and only if it meets every active one; ids stay unique |
| Dashboard.SomaConcat | pages/dashboard.py:51-56 | a column sum splits over any split of the rows |
| Dashboard.Calcular | pages/dashboard.py:51-57 | the spend is product cost plus fees plus coupons; the order count is the number of distinct ids, at most the rows |
| Dashboard.LucroIgualReceitaMenosGasto | pages/dashboard.py:51-56 | when every stored profit is consistent, the summed profit is revenue less spend |
| Dashboard.LucroDoPainel | pages/dashboard.py:55-56 | the profit shown equals revenue minus the total spend shown |
| Dashboard.Painel | pages/dashboard.py:21-57 | no metrics if and only if the ledger is empty or no row survives the joins and filters |
| Dashboard.PedidosDoPainel | pages/dashboard.py:57 | on a ledger with unique ids the order count equals the rows shown, each a ledger row meeting every filter |
| Relatorios.SeparadorEm | pages/relatorios.py:58 | where one of the pattern's two alternatives starts: " - ", or a space followed by a digit; `Corte` and `GrupoSemSeparador` state their use |
| Relatorios.ExtrairGrupo | pages/relatorios.py:57-58 | `extrair_grupo`: the first piece of the split, stripped; `GrupoAntesDoSeparador`, `GrupoSemSeparador` and `ExtrairGrupoIdempotente` carry its contract |
| Relatorios.Corte | pages/relatorios.py:58 | the cut is at the first separator (" - " or a space then a digit), or at the end |
| Relatorios.GrupoAntesDoSeparador | pages/relatorios.py:58 | the group is the stripped text before the first separator |
| Relatorios.SeparadorDoTrecho | pages/relatorios.py:58 | a separator inside a slice is a separator of the whole name |
| Relatorios.GrupoSemSeparador | pages/relatorios.py:57-58 | a product group contains no separator |
| Relatorios.ExtrairGrupoIdempotente | pages/relatorios.py:57-58 | extracting the group of a group changes nothing |
| Relatorios.AnotarTodas | pages/relatorios.py:54-60 | one annotated row per filtered row, with units `quantidade * quantidadeKit` and spend `custoUnidade * quantidadeKit * quantidade` |
| Relatorios.SomasSemChave | pages/relatorios.py:63-66 | a key no row carries sums to zero |
| Relatorios.PosicaoDe | pages/relatorios.py:63 | a group is found exactly when its key is present |
| Relatorios.Acumular | pages/relatorios.py:63-66 | one row adds at most one group, with its key and only when absent, and changes no key |
| Relatorios.Agrupar | pages/relatorios.py:63-66 | the groupby on (group, category) with both sums, groups in order of first appearance; `AgruparCorreto` carries its contract |
| Relatorios.AgruparCorreto | pages/relatorios.py:63-66 | the groups have distinct keys, each from some row, every row's key has a group, and each group's totals are the sums over its rows |
| Relatorios.SomasAcrescentar | pages/relatorios.py:64-65 | one more row adds its units and spend to its own key only |
| Relatorios.PassoDistintas | pages/relatorios.py:63 | accumulating keeps group keys distinct |
| Relatorios.PassoChaves | pages/relatorios.py:63 | every group key still comes from some row |
| Relatorios.PassoLinhas | pages/relatorios.py:63 | every row still has its group |
| Relatorios.PassoTotais | pages/relatorios.py:64-65 | every group's totals are still the sums over its rows |
| Relatorios.Inserir | pages/relatorios.py:68 | inserting into a list of decreasing units keeps it decreasing and adds exactly that group |
| Relatorios.Ordenar | pages/relatorios.py:68 | the result is ordered by units, highest first, and is a permutation of the groups |
| Relatorios.UmaVez | pages/relatorios.py:63-66 | with distinct keys each group occurs once |
| Relatorios.DistintasReordenadas | pages/relatorios.py:68 | reordering keeps keys distinct |
| Relatorios.Relatorio | pages/relatorios.py:21-68 | no report if and only if the ledger is empty or no row survives the joins and filters |
| Relatorios.RelatorioCorreto | pages/relatorios.py:42-68 | a report is non-empty, ordered by units, and is the grouping of exactly the filtered rows |
| Relatorios.Reordenado | pages/relatorios.py:68 | a permutation of a correct grouping is a correct grouping |

## Left out

- The Streamlit user interface is not modelled: widgets, forms, messages, reruns and the display tables. This includes the import preview (line 51-54), the dashboard's detail table (lines 63-77) and the report's renaming and column order (lines 70-87).
- Excel reading is not modelled. The sheet arrives as a frame of text and empty cells.
- `pd.to_numeric` and `pd.to_datetime` are not modelled. They are parsers passed in as parameters.
- Float rounding and money formatting are not modelled. Amounts are exact reals.
- SQLite's choice of new category ids is not modelled. The model uses a counter that never reuses an id. SQLite gives a new row `max(id)+1`, so after the highest-id category is deleted, the products still pointing at it silently join the next category created; the model does not show this.
- `read_sql` failures (the `except` blocks at dashboard.py:15-17 and relatorios.py:16-17) are not modelled.
- Foreign keys are not enforced by the store, so deleting a category leaves products pointing at it. The joins then drop those products' sales; the model does the same.
- Duplicate header labels are not modelled faithfully. pandas would return several columns; the model reads the first one.
- The column defaults at database.py:23-25 are not modelled, because every form passes explicit values.
- ImportarVendas.SessaoImportacao.ProcessarVendas: the list is cleared only when Processar Vendas runs. The source clears it on every rerun while a file is uploaded (line 23). As written, pressing "Salvar SKU" reruns the page, line 23 empties the list before line 107 reads it, the form is not rendered and its submission is lost. So the step modelled by `CadastrarSkuFaltante` cannot complete from lines 121-133 while the file is still in the uploader.
- ImportarVendas.MontarLancamento: row errors are reported when the row is built. Error precedence across rows is left out.
- ImportarVendas.MontarLancamento: a NaN id or NaT date is refused while building. The source refuses it only at commit, through the NOT NULL constraint.
- ImportarVendas.LancamentoConsistente: the profit identity is proved only for whole quantities. The source computes with the float quantity but stores `int(quantidade)`.
- ImportarVendas.SessaoImportacao.CadastrarSkuFaltante: it registers text SKUs only. A NaN SKU is listed, because NaN is truthy in Python, but registering it is left out.
- ImportarVendas.SessaoImportacao.CadastrarSkuFaltante: only the empty name is refused, as at line 122. Neither the name nor the SKU is stripped.
- Relatorios.Agrupar: groups come out in order of first appearance. pandas sorts them by key, and the model leaves that order out.
- Relatorios.Ordenar: ties in units keep their input order (a stable sort). pandas' default sort is not stable, so tie order is left out.
- Relatorios.SeparadorEm: `\d` is taken as an ASCII digit only.
- Relatorios.AnotarTodas: the computed columns at lines 54-60 are per-row values, not columns added to the frame in place.
- Dashboard.Painel: when every row is dropped by the joins, the source computes a NaT minimum date (lines 38-39). The model returns no metrics.
- Dashboard.Painel: the dashboard's date bounds (lines 38-39) are not modelled. The selected period is an input.
- Dashboard.Painel: as written, the dashboard and the reports would fail with KeyError on the missing `plataforma` column (dashboard.py:32). The model follows the corrected schema, as in the finding below.
- The column suffixes pandas adds in the joins (`_cat`, `_x`, `_y`) are not modelled, because no value the pages compute depends on them.

## Findings

| source | as written | input that shows it | evidently intended | confidence | as-written member | corrected member |
|---|---|---|---|---|---|---|
| pages/importarVendas.py:84 | `LancamentosVendas(...)` is called with `plataforma=`, but database.py:40-53 declares no such column. The declarative constructor raises TypeError, so every import with a resolved sale fails and nothing is ever stored | an empty ledger, SKU1 linked to kit K, and one Shopee row P1 of SKU1 (`VendaExemplo`) | the ledger declares a `plataforma` column and stores the selected platform, which the dashboard and the reports filter on | not executed | ImportarVendas.ImportarComoEscrito | ImportarVendas.Importar |

`ImportarVendas.ComoEscritoNuncaSalva` and `ImportarVendas.ExemploPlataforma`
show the as-written behaviour. `ImportarVendas.Importar` is the corrected import: `ImportarSucesso`
proves what it stores, and the page method `ProcessarVendas` uses it.

The order-id constraint also shapes every import. `pedidoId` is UNIQUE (database.py:44),
yet the importer counts orders and items separately (line 88). So, in the model, a file
holding two resolved items of one order fails as a whole (`ImportarVendas.MultiItemFalha`),
and a committed batch always reports as many orders as items
(`Ledger.AceitoPedidosIgualItens`). The source does not show how multi-item orders were
meant to be stored, so this is not listed as a finding.
