/** The admin-action audit log (`AdminAction` table): recording an action
    and reading back one entity's history, newest first. The table is a
    sequence of rows in insertion order; the store's answer to each call is
    a parameter. */
module History {
  import opened Wrappers
  import opened Seqs
  import opened Records

  /** The row `recordAction` inserts: the store assigns `id`, and
      `created_at` is the current time. */
  function ActionRow(adminEmail: string, action: string, oldStatus: string, newStatus: string,
                     entityType: string, entityId: string, id: string, now: Timestamp): HistoryDB
  {
    HistoryDB(id, adminEmail, action, oldStatus, newStatus, entityType, entityId, now)
  }

  /** `HistoryService.recordAction`: the log grows by exactly the new row
      when the insert succeeds and is unchanged otherwise; an error or an
      exception is only logged, never passed to the caller. */
  function RecordAction(log: seq<HistoryDB>, adminEmail: string, action: string, oldStatus: string, newStatus: string,
                        entityType: string, entityId: string, id: string, now: Timestamp, insert: StoreOutcome)
    : (log': seq<HistoryDB>)
    ensures insert == StoreOk ==>
      |log'| == |log| + 1 && log'[..|log|] == log &&
      log'[|log|] == HistoryDB(id, adminEmail, action, oldStatus, newStatus, entityType, entityId, now)
    ensures insert != StoreOk ==> log' == log
  {
    if insert == StoreOk then
      log + [ActionRow(adminEmail, action, oldStatus, newStatus, entityType, entityId, id, now)]
    else log
  }

  function ForEntity(entityId: string): HistoryDB -> bool
  {
    (row: HistoryDB) => row.entity_id == entityId
  }

  ghost predicate NewestFirst(hs: seq<Records.History>)
  {
    forall i, j :: 0 <= i < j < |hs| ==> hs[i].createdAt >= hs[j].createdAt
  }

  /** The rows of one entity as the select returns them, newest first. */
  function EntityRows(log: seq<HistoryDB>, entityId: string): seq<HistoryDB>
  {
    SortDesc(Filter(log, ForEntity(entityId)), (row: HistoryDB) => row.created_at)
  }

  /** `data.map(convertHistoryDBToHistory)`. */
  function ConvertAll(rows: seq<HistoryDB>): (r: seq<Records.History>)
    ensures |r| == |rows|
    ensures forall i :: 0 <= i < |rows| ==> r[i] == ConvertHistory(rows[i])
  {
    if rows == [] then [] else [ConvertHistory(rows[0])] + ConvertAll(rows[1..])
  }

  /** The selected rows are the entity's rows, every one of them, newest
      first. */
  lemma EntityRowsExact(log: seq<HistoryDB>, entityId: string)
    ensures |EntityRows(log, entityId)| == Count(log, ForEntity(entityId))
    ensures forall i, j :: 0 <= i < j < |EntityRows(log, entityId)| ==>
      EntityRows(log, entityId)[i].created_at >= EntityRows(log, entityId)[j].created_at
    ensures forall i :: 0 <= i < |EntityRows(log, entityId)| ==>
      EntityRows(log, entityId)[i].entity_id == entityId && EntityRows(log, entityId)[i] in log
    ensures forall row :: row in log && row.entity_id == entityId ==> row in EntityRows(log, entityId)
  {
    var rows := Filter(log, ForEntity(entityId));
    var sorted := EntityRows(log, entityId);
    assert multiset(sorted) == multiset(rows);
    forall i | 0 <= i < |sorted|
      ensures sorted[i].entity_id == entityId && sorted[i] in log
    {
      assert sorted[i] in multiset(sorted);
      assert sorted[i] in rows;
    }
    forall row | row in log && row.entity_id == entityId
      ensures row in sorted
    {
      var k :| 0 <= k < |log| && log[k] == row;
      assert row in rows;
      assert row in multiset(rows);
    }
  }

  /** `HistoryService.getEntityHistory`: an error or an exception yields the
      empty list; otherwise exactly the entity's rows, converted, with the
      newest first. Rows with equal timestamps may come in any order. */
  function GetEntityHistory(log: seq<HistoryDB>, entityId: string, select: StoreOutcome): (r: seq<Records.History>)
    ensures select != StoreOk ==> r == []
    ensures select == StoreOk ==>
      |r| == Count(log, ForEntity(entityId)) &&
      NewestFirst(r) &&
      (forall i :: 0 <= i < |r| ==> r[i].entityId == entityId && HistoryRow(r[i]) in log) &&
      (forall row :: row in log && row.entity_id == entityId ==> ConvertHistory(row) in r)
  {
    if select != StoreOk then []
    else
      var sorted := EntityRows(log, entityId);
      EntityRowsExact(log, entityId);
      var r := ConvertAll(sorted);
      assert forall row :: row in sorted ==> ConvertHistory(row) in r by {
        forall row | row in sorted
          ensures ConvertHistory(row) in r
        {
          var j :| 0 <= j < |sorted| && sorted[j] == row;
          assert r[j] == ConvertHistory(row);
        }
      }
      r
  }

  /** After a successful insert the entity's history lists the new action. */
  lemma RecordedActionListed(log: seq<HistoryDB>, adminEmail: string, action: string, oldStatus: string,
                             newStatus: string, entityType: string, entityId: string, id: string, now: Timestamp)
    ensures History(id, adminEmail, action, oldStatus, newStatus, entityType, entityId, now)
      in GetEntityHistory(RecordAction(log, adminEmail, action, oldStatus, newStatus, entityType, entityId, id, now, StoreOk),
                          entityId, StoreOk)
  {
    var log' := RecordAction(log, adminEmail, action, oldStatus, newStatus, entityType, entityId, id, now, StoreOk);
    assert log'[|log|] in log';
  }

  /** Recording an action for one entity leaves every other entity's
      history exactly as it was. */
  lemma {:induction false} RecordLeavesOthers(log: seq<HistoryDB>, adminEmail: string, action: string, oldStatus: string,
                                              newStatus: string, entityType: string, entityId: string, id: string,
                                              now: Timestamp, insert: StoreOutcome, other: string)
    requires other != entityId
    ensures GetEntityHistory(RecordAction(log, adminEmail, action, oldStatus, newStatus, entityType, entityId, id, now, insert),
                             other, StoreOk)
         == GetEntityHistory(log, other, StoreOk)
  {
    if insert == StoreOk {
      var row := ActionRow(adminEmail, action, oldStatus, newStatus, entityType, entityId, id, now);
      FilterAppend(log, [row], ForEntity(other));
      assert Filter([row], ForEntity(other)) == [];
      assert Filter(log + [row], ForEntity(other)) == Filter(log, ForEntity(other));
    }
  }
}
