/**
 Append-only database tables. A table is the sequence of its rows, oldest first;
 `owner` is the foreign key that ties a row to an event.
 */
module Tables {

  /** The rows that belong to event `id`, oldest first. */
  function Of<T>(table: seq<T>, owner: T -> nat, id: nat): seq<T>
  {
    if table == [] then [] else
      var rest := Of(table[..|table| - 1], owner, id);
      var last := table[|table| - 1];
      if owner(last) == id then rest + [last] else rest
  }

  lemma {:induction false} OfAppend<T>(table: seq<T>, rows: seq<T>, owner: T -> nat, id: nat, target: nat)
    requires forall r <- rows :: owner(r) == target
    ensures Of(table + rows, owner, id) == if id == target then Of(table, owner, id) + rows else Of(table, owner, id)
  {
    if rows == [] {
      assert table + rows == table;
    } else {
      var init, last := rows[..|rows| - 1], rows[|rows| - 1];
      OfAppend(table, init, owner, id, target);
      assert (table + rows)[..|table + rows| - 1] == table + init;
      assert rows == init + [last];
    }
  }

  lemma {:induction false} OfNone<T>(table: seq<T>, owner: T -> nat, id: nat)
    requires forall r <- table :: owner(r) != id
    ensures Of(table, owner, id) == []
  {
    if table != [] {
      OfNone(table[..|table| - 1], owner, id);
    }
  }

  lemma {:induction false} OfKeeps<T>(table: seq<T>, owner: T -> nat, row: T)
    requires row in table
    ensures row in Of(table, owner, owner(row))
  {
    var last := table[|table| - 1];
    if row != last {
      assert row in table[..|table| - 1];
      OfKeeps(table[..|table| - 1], owner, row);
    }
  }
}
