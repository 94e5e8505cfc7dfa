/**
 * The browser storage cell that holds the serialised report list, and the
 * lookup by id that both the application shell and the report viewer use.
 */
module Storage {
  import opened Wrappers
  import opened Types

  /**
   * What reading the stored list yields: nothing (the key is missing or holds
   * the empty string), text that does not parse, or a list of reports.
   */
  datatype Blob = Absent | Malformed | Written(list: seq<AuditResult>)

  /** The position of the first report with the given id, or -1 (JavaScript's `findIndex`). */
  function IndexOfId(audits: seq<AuditResult>, id: string): (k: int)
    ensures -1 <= k < |audits|
    ensures k == -1 <==> forall i :: 0 <= i < |audits| ==> audits[i].id != id
    ensures k >= 0 ==> audits[k].id == id && forall i :: 0 <= i < k ==> audits[i].id != id
  {
    if |audits| == 0 then -1
    else if audits[0].id == id then 0
    else
      var k := IndexOfId(audits[1..], id);
      if k == -1 then -1 else k + 1
  }

  /** The first report with the given id, if any (JavaScript's `find`). */
  function FindById(audits: seq<AuditResult>, id: string): (r: Option<AuditResult>)
    ensures r.None? <==> forall i :: 0 <= i < |audits| ==> audits[i].id != id
    ensures r.Some? ==> exists k :: 0 <= k < |audits| && audits[k] == r.value && r.value.id == id
    ensures r.Some? ==> r.value == audits[IndexOfId(audits, id)]
  {
    var k := IndexOfId(audits, id);
    if k < 0 then None else Some(audits[k])
  }

  /** A match in the front part is found before anything in the back part. */
  lemma {:induction false} FindInPrefix(front: seq<AuditResult>, back: seq<AuditResult>, id: string)
    requires FindById(front, id).Some?
    ensures FindById(front + back, id) == FindById(front, id)
  {
    if front[0].id != id {
      assert (front + back)[1..] == front[1..] + back;
      FindInPrefix(front[1..], back, id);
    }
  }
}
