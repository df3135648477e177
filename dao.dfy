/**
 * The `payments` table and the data access object over it
 * (server/dao/dao.go). Rows are kept in table order (SQLite's rowid order,
 * which is insertion order); `id` is the primary key.
 */
module Dao {
  import opened Outcomes

  /** One row of `payments`, as `GetPaymentDataResponse` carries it. */
  datatype Payment = Payment(
    id: string,
    receiverId: string,
    amount: int,
    status: string,
    truelayerId: string)

  /** Column defaults declared by CreateTable. */
  const DefaultStatus: string := "unpaid"
  const DefaultTruelayerId: string := ""

  /** The row an INSERT of the three explicit columns stores. */
  function NewPayment(id: string, receiverId: string, amount: int): (p: Payment)
    ensures p.id == id && p.receiverId == receiverId && p.amount == amount
    ensures p.status == "unpaid" && p.truelayerId == ""
  {
    Payment(id, receiverId, amount, DefaultStatus, DefaultTruelayerId)
  }

  predicate HasId(rows: seq<Payment>, id: string)
  {
    exists i :: 0 <= i < |rows| && rows[i].id == id
  }

  predicate HasTruelayerId(rows: seq<Payment>, truelayerId: string)
  {
    exists i :: 0 <= i < |rows| && rows[i].truelayerId == truelayerId
  }

  /** The primary-key invariant: no two rows share an id. */
  predicate IdsUnique(rows: seq<Payment>)
  {
    forall i, j :: 0 <= i < j < |rows| ==> rows[i].id != rows[j].id
  }

  /** `UPDATE payments SET truelayer_payment_id = t WHERE id = id`. */
  function SetTruelayerIdWhere(rows: seq<Payment>, id: string, t: string): (r: seq<Payment>)
    ensures |r| == |rows|
    ensures forall i :: 0 <= i < |rows| ==> r[i] == rows[i].(truelayerId := r[i].truelayerId)
    ensures forall i :: 0 <= i < |rows| && rows[i].id == id ==> r[i].truelayerId == t
    ensures forall i :: 0 <= i < |rows| && rows[i].id != id ==> r[i] == rows[i]
  {
    if rows == [] then []
    else
      var head := if rows[0].id == id then rows[0].(truelayerId := t) else rows[0];
      [head] + SetTruelayerIdWhere(rows[1..], id, t)
  }

  /** `UPDATE payments SET status = s WHERE truelayer_payment_id = t`. */
  function SetStatusWhere(rows: seq<Payment>, t: string, s: string): (r: seq<Payment>)
    ensures |r| == |rows|
    ensures forall i :: 0 <= i < |rows| ==> r[i] == rows[i].(status := r[i].status)
    ensures forall i :: 0 <= i < |rows| && rows[i].truelayerId == t ==> r[i].status == s
    ensures forall i :: 0 <= i < |rows| && rows[i].truelayerId != t ==> r[i] == rows[i]
  {
    if rows == [] then []
    else
      var head := if rows[0].truelayerId == t then rows[0].(status := s) else rows[0];
      [head] + SetStatusWhere(rows[1..], t, s)
  }

  /** Inserting a row whose id is new keeps the ids unique. */
  lemma InsertKeepsIdsUnique(rows: seq<Payment>, p: Payment)
    requires IdsUnique(rows) && !HasId(rows, p.id)
    ensures IdsUnique(rows + [p])
  {
  }

  /** With unique ids, a row is determined by its id. */
  lemma IdDeterminesRow(rows: seq<Payment>, p: Payment, q: Payment)
    requires IdsUnique(rows) && p in rows && q in rows && p.id == q.id
    ensures p == q
  {
  }

  /** MapToTruelayer touches at most one row when ids are unique. */
  lemma SetTruelayerIdTouchesOneRow(rows: seq<Payment>, id: string, t: string, i: int, j: int)
    requires IdsUnique(rows) && 0 <= i < |rows| && 0 <= j < |rows| && i != j
    requires SetTruelayerIdWhere(rows, id, t)[i] != rows[i]
    ensures SetTruelayerIdWhere(rows, id, t)[j] == rows[j]
  {
  }

  /** Both UPDATEs leave the id column, and so its uniqueness, alone. */
  lemma UpdatesKeepIdsUnique(rows: seq<Payment>, a: string, b: string)
    requires IdsUnique(rows)
    ensures IdsUnique(SetTruelayerIdWhere(rows, a, b))
    ensures IdsUnique(SetStatusWhere(rows, a, b))
  {
  }

  /** Setting the same upstream id twice is the same as setting it once. */
  lemma SetTruelayerIdIdempotent(rows: seq<Payment>, id: string, t: string)
    ensures SetTruelayerIdWhere(SetTruelayerIdWhere(rows, id, t), id, t) == SetTruelayerIdWhere(rows, id, t)
  {
  }

  /** Without a guard the later status always wins: a second update overrides the first. */
  lemma SetStatusLastWins(rows: seq<Payment>, t: string, s1: string, s2: string)
    ensures SetStatusWhere(SetStatusWhere(rows, t, s1), t, s2) == SetStatusWhere(rows, t, s2)
  {
  }

  /** An UPDATE whose WHERE clause matches no row changes nothing. */
  lemma UpdatesWithoutMatch(rows: seq<Payment>, id: string, t: string, s: string)
    ensures !HasId(rows, id) ==> SetTruelayerIdWhere(rows, id, t) == rows
    ensures !HasTruelayerId(rows, t) ==> SetStatusWhere(rows, t, s) == rows
  {
  }

  /**
   * After mapping row `id` to `t`, a lookup by `id` sees `t`, and a lookup by
   * `t` finds that row.
   */
  lemma MapThenLookup(rows: seq<Payment>, id: string, t: string)
    requires HasId(rows, id)
    ensures forall p :: p in SetTruelayerIdWhere(rows, id, t) && p.id == id ==> p.truelayerId == t
    ensures HasTruelayerId(SetTruelayerIdWhere(rows, id, t), t)
  {
  }

  /**
   * A row read by upstream id before the status update differs from the
   * stored row afterwards in its status only, which is now `s`.
   */
  lemma SnapshotBeforeStatusUpdate(rows: seq<Payment>, t: string, s: string, p: Payment)
    requires IdsUnique(rows) && p in rows && p.truelayerId == t
    ensures p.(status := s) in SetStatusWhere(rows, t, s)
    ensures forall q :: q in SetStatusWhere(rows, t, s) && q.id == p.id ==> q == p.(status := s)
  {
  }

  /** The DAO over one SQLite `payments` table. */
  class PaymentTable {
    var rows: seq<Payment>

    ghost predicate Valid()
      reads this
    {
      IdsUnique(rows)
    }

    /** NewDAO followed by CreateTable: the table holds what the database file already stored. */
    constructor Open(stored: seq<Payment>)
      requires IdsUnique(stored)
      ensures Valid() && rows == stored
    {
      rows := stored;
    }

    /** INSERT with the chosen uuid; the primary key rejects an id already present. */
    method InsertPayment(id: string, receiverId: string, amount: int) returns (r: Result<string>)
      requires Valid()
      modifies this
      ensures Valid()
      ensures HasId(old(rows), id) ==> r == Err(UniqueViolation) && rows == old(rows)
      ensures !HasId(old(rows), id) ==> r == Ok(id) && rows == old(rows) + [NewPayment(id, receiverId, amount)]
    {
      if HasId(rows, id) {
        return Err(UniqueViolation);
      }
      InsertKeepsIdsUnique(rows, NewPayment(id, receiverId, amount));
      rows := rows + [NewPayment(id, receiverId, amount)];
      return Ok(id);
    }

    /** Sets the upstream id of the row with `id`; no such row is not an error. */
    method MapToTruelayer(id: string, truelayerId: string)
      requires Valid()
      modifies this
      ensures Valid()
      ensures rows == SetTruelayerIdWhere(old(rows), id, truelayerId)
    {
      var i := 0;
      while i < |rows|
        invariant 0 <= i <= |rows| == |old(rows)|
        invariant forall k :: 0 <= k < i ==> rows[k] == SetTruelayerIdWhere(old(rows), id, truelayerId)[k]
        invariant forall k :: i <= k < |rows| ==> rows[k] == old(rows)[k]
      {
        if rows[i].id == id {
          rows := rows[i := rows[i].(truelayerId := truelayerId)];
        }
        i := i + 1;
      }
      UpdatesKeepIdsUnique(old(rows), id, truelayerId);
    }

    /** Sets the status of every row whose upstream id is `truelayerId`, possibly none. */
    method UpdatePaymentStatus(truelayerId: string, status: string)
      requires Valid()
      modifies this
      ensures Valid()
      ensures rows == SetStatusWhere(old(rows), truelayerId, status)
    {
      var i := 0;
      while i < |rows|
        invariant 0 <= i <= |rows| == |old(rows)|
        invariant forall k :: 0 <= k < i ==> rows[k] == SetStatusWhere(old(rows), truelayerId, status)[k]
        invariant forall k :: i <= k < |rows| ==> rows[k] == old(rows)[k]
      {
        if rows[i].truelayerId == truelayerId {
          rows := rows[i := rows[i].(status := status)];
        }
        i := i + 1;
      }
      UpdatesKeepIdsUnique(old(rows), truelayerId, status);
    }

    /** `SELECT … WHERE id = ?` through QueryRow. */
    method GetPayment(id: string) returns (r: Result<Payment>)
      ensures r.Ok? || r == Err(NoRows)
      ensures r.Ok? <==> HasId(rows, id)
      ensures r.Ok? ==> r.value in rows && r.value.id == id
    {
      var i := 0;
      while i < |rows|
        invariant 0 <= i <= |rows|
        invariant forall k :: 0 <= k < i ==> rows[k].id != id
      {
        if rows[i].id == id {
          return Ok(rows[i]);
        }
        i := i + 1;
      }
      return Err(NoRows);
    }

    /** `SELECT … WHERE truelayer_payment_id = ?` through QueryRow: some matching row. */
    method GetPaymentByTruelayerID(truelayerId: string) returns (r: Result<Payment>)
      ensures r.Ok? || r == Err(NoRows)
      ensures r.Ok? <==> HasTruelayerId(rows, truelayerId)
      ensures r.Ok? ==> r.value in rows && r.value.truelayerId == truelayerId
    {
      var i := 0;
      while i < |rows|
        invariant 0 <= i <= |rows|
        invariant forall k :: 0 <= k < i ==> rows[k].truelayerId != truelayerId
      {
        if rows[i].truelayerId == truelayerId {
          return Ok(rows[i]);
        }
        i := i + 1;
      }
      return Err(NoRows);
    }
  }
}
