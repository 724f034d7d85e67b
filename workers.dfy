/**
 * service/storage/elasticsearch/workers.go: the per-worker statistics of a
 * bulk processor, copied into a printable list after each write.
 */
module EsWorkers {
  import opened Wrappers

  /** The fields of elastic.BulkProcessorWorkerStats that are copied. */
  datatype BulkWorkerStats = BulkWorkerStats(queued: int, lastDuration: int)

  /** Worker: position of the bulk worker, its queue depth and its last commit duration (ns). */
  datatype Worker = Worker(index: int, queued: int, lastDuration: int)

  /** Workers is a list of Worker that InitWorkers appends to in place. */
  class Workers {
    var items: seq<Worker>

    constructor ()
      ensures items == []
    {
      items := [];
    }

    /**
     * Appends one entry per bulk worker, in order, numbered by position;
     * refuses an empty list and leaves the entries untouched then.
     */
    method InitWorkers(bulkWorkers: seq<BulkWorkerStats>) returns (err: Option<string>)
      modifies this
      ensures err.Some? <==> |bulkWorkers| == 0
      ensures err.Some? ==> items == old(items) && err.value == "len of bulkWorkers is lte zero"
      ensures |items| == |old(items)| + |bulkWorkers|
      ensures items[..|old(items)|] == old(items)
      ensures forall i :: 0 <= i < |bulkWorkers| ==>
        items[|old(items)| + i] == Worker(i, bulkWorkers[i].queued, bulkWorkers[i].lastDuration)
    {
      if |bulkWorkers| <= 0 {
        return Some("len of bulkWorkers is lte zero");
      }
      for index := 0 to |bulkWorkers|
        invariant |items| == |old(items)| + index
        invariant items[..|old(items)|] == old(items)
        invariant forall i :: 0 <= i < index ==>
          items[|old(items)| + i] == Worker(i, bulkWorkers[i].queued, bulkWorkers[i].lastDuration)
      {
        var item := bulkWorkers[index];
        items := items + [Worker(index, item.queued, item.lastDuration)];
      }
      return None;
    }
  }
}
