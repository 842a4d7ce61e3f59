/**
 * The `lancamentos_vendas` table as the importer writes it: rows are only ever added, in one
 * transaction per import, and the UNIQUE constraint on `pedidoId` decides whether the
 * transaction commits.
 */
module Ledger {
  import opened Schema

  /** `db.add_all(lote); db.commit()` succeeds exactly when the order ids stay unique. */
  predicate AceitaLote(existentes: seq<LancamentoVenda>, lote: seq<LancamentoVenda>) {
    PedidosUnicos(existentes + lote)
  }

  class LedgerStore {
    var lancamentos: seq<LancamentoVenda>

    ghost predicate Valid()
      reads this
    {
      PedidosUnicos(lancamentos)
    }

    constructor ()
      ensures Valid() && lancamentos == []
    {
      lancamentos := [];
    }

    /** `{str(id[0]) for id in db.query(LancamentosVendas.pedidoId).all()}`. */
    function PedidosExistentes(): (ids: set<string>)
      reads this
      ensures forall r :: r in lancamentos ==> r.pedidoId in ids
      ensures forall x :: x in ids ==> exists i :: 0 <= i < |lancamentos| && lancamentos[i].pedidoId == x
    {
      PedidoIds(lancamentos)
    }

    /**
     * One transaction: all rows are stored, in order, or (IntegrityError on the UNIQUE
     * `pedidoId`) none is.
     */
    method Commit(lote: seq<LancamentoVenda>) returns (ok: bool)
      requires Valid()
      modifies this
      ensures Valid()
      ensures ok == AceitaLote(old(lancamentos), lote)
      ensures lancamentos == if ok then old(lancamentos) + lote else old(lancamentos)
    {
      var rep := ContemRepetidos(lancamentos + lote);
      ok := !rep;
      if ok {
        lancamentos := lancamentos + lote;
      }
    }
  }

  /** The check the database makes on commit: is some order id used twice? */
  method ContemRepetidos(rows: seq<LancamentoVenda>) returns (rep: bool)
    ensures rep <==> !PedidosUnicos(rows)
  {
    var vistos: set<string> := {};
    rep := false;
    for k := 0 to |rows|
      invariant vistos == PedidoIds(rows[..k])
      invariant !rep <==> PedidosUnicos(rows[..k])
    {
      PassoRepetidos(rows, k);
      if !rep && rows[k].pedidoId in vistos {
        rep := true;
      }
      vistos := vistos + {rows[k].pedidoId};
    }
    assert rows[..|rows|] == rows;
  }

  /** One more row: its id joins the ids seen, and the ids stay unique exactly when it is new. */
  lemma PassoRepetidos(rows: seq<LancamentoVenda>, k: nat)
    requires k < |rows|
    ensures PedidoIds(rows[..k + 1]) == PedidoIds(rows[..k]) + {rows[k].pedidoId}
    ensures PedidosUnicos(rows[..k + 1]) <==> PedidosUnicos(rows[..k]) && rows[k].pedidoId !in PedidoIds(rows[..k])
  {
    var p := rows[..k + 1];
    assert p[..k] == rows[..k] && p[k] == rows[k];
    assert p == rows[..k] + [rows[k]];
    UnicosUltimo(p);
    PedidoIdsAcrescentar(rows[..k], rows[k]);
  }

  /** A batch that uses one order id twice (a multi-item order) never commits. */
  lemma PedidoRepetidoRejeitado(existentes: seq<LancamentoVenda>, lote: seq<LancamentoVenda>, i: nat, j: nat)
    requires i < j < |lote| && lote[i].pedidoId == lote[j].pedidoId
    ensures !AceitaLote(existentes, lote)
  {
    assert (existentes + lote)[|existentes| + i] == lote[i];
    assert (existentes + lote)[|existentes| + j] == lote[j];
  }

  /** A batch reusing an order id already stored never commits. */
  lemma PedidoExistenteRejeitado(existentes: seq<LancamentoVenda>, lote: seq<LancamentoVenda>, i: nat, j: nat)
    requires i < |existentes| && j < |lote| && existentes[i].pedidoId == lote[j].pedidoId
    ensures !AceitaLote(existentes, lote)
  {
    assert (existentes + lote)[i] == existentes[i];
    assert (existentes + lote)[|existentes| + j] == lote[j];
  }

  /** A committed batch has as many distinct orders as rows: the "orders" and "items" it reports agree. */
  lemma {:induction false} AceitoPedidosIgualItens(existentes: seq<LancamentoVenda>, lote: seq<LancamentoVenda>)
    requires AceitaLote(existentes, lote)
    ensures PedidosUnicos(lote) && |PedidoIds(lote)| == |lote|
  {
    forall i, j | 0 <= i < j < |lote| ensures lote[i].pedidoId != lote[j].pedidoId {
      assert (existentes + lote)[|existentes| + i] == lote[i];
      assert (existentes + lote)[|existentes| + j] == lote[j];
    }
    DistinctOrdersVsItems(lote);
  }

  /** A batch with fresh, pairwise distinct order ids commits on a valid ledger. */
  lemma {:induction false} NovosDistintosAceitos(existentes: seq<LancamentoVenda>, lote: seq<LancamentoVenda>)
    requires PedidosUnicos(existentes) && PedidosUnicos(lote)
    requires forall r :: r in lote ==> r.pedidoId !in PedidoIds(existentes)
    ensures AceitaLote(existentes, lote)
  {
    var t := existentes + lote;
    forall i, j | 0 <= i < j < |t| ensures t[i].pedidoId != t[j].pedidoId {
      if j < |existentes| {
        assert t[i] == existentes[i] && t[j] == existentes[j];
      } else if i < |existentes| {
        assert t[i] == existentes[i] && t[j] == lote[j - |existentes|];
        assert lote[j - |existentes|] in lote;
      } else {
        assert t[i] == lote[i - |existentes|] && t[j] == lote[j - |existentes|];
      }
    }
  }
}
