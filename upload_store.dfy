/**
 * The client upload queue. Items are added as `queued`; processing takes the items
 * that were queued when it started, one at a time in queue order, through
 * `uploading` and a progress count of 10, 20, …, 100 to `completed`. Updates are by
 * id and touch every item carrying that id. The timer-driven progress is modelled as
 * the sequence of store updates it makes; notifications are recorded as they are
 * requested.
 */
module UploadStore {
  import opened Common
  import opened NotificationStore

  datatype Status = Queued | Uploading | Completed | Failed

  datatype UploadItem = UploadItem(id: string, fileName: string, progress: int, status: Status)

  /** One store update or notification request, in the order they happen. */
  datatype Update =
    | StatusSet(id: string, status: Status)
    | ProgressSet(id: string, progress: int)
    | UploadingFlag(on: bool)
    | Notify(notice: Notice)

  /** The notifications the store requests; Render gives what is passed to `addNotification`. */
  datatype Notice = FilesAdded(count: nat) | UploadStarted(item: UploadItem) | UploadDone(item: UploadItem)

  // ---------------------------------------------------------------------------
  // Reducers

  function HasId(id: string): UploadItem -> bool {
    (it: UploadItem) => it.id == id
  }

  function WithProgress(progress: int): UploadItem -> UploadItem {
    (it: UploadItem) => it.(progress := progress)
  }

  function WithStatus(status: Status): UploadItem -> UploadItem {
    (it: UploadItem) => it.(status := status)
  }

  /** `updateProgress`: only the progress of the items with that id changes. */
  function UpdateProgress(queue: seq<UploadItem>, id: string, progress: int): (r: seq<UploadItem>)
    ensures |r| == |queue|
    ensures forall i :: 0 <= i < |r| ==> r[i] == if queue[i].id == id then queue[i].(progress := progress) else queue[i]
  {
    MapWhere(queue, HasId(id), WithProgress(progress))
  }

  /** `setItemStatus`: only the status of the items with that id changes. */
  function SetItemStatus(queue: seq<UploadItem>, id: string, status: Status): (r: seq<UploadItem>)
    ensures |r| == |queue|
    ensures forall i :: 0 <= i < |r| ==> r[i] == if queue[i].id == id then queue[i].(status := status) else queue[i]
  {
    MapWhere(queue, HasId(id), WithStatus(status))
  }

  /** A later progress update overrides an earlier one. */
  lemma UpdateProgressTwice(queue: seq<UploadItem>, id: string, p: int, p2: int)
    ensures UpdateProgress(UpdateProgress(queue, id, p), id, p2) == UpdateProgress(queue, id, p2)
  {
    var l, r := UpdateProgress(UpdateProgress(queue, id, p), id, p2), UpdateProgress(queue, id, p2);
    assert forall j :: 0 <= j < |l| ==> l[j] == r[j];
  }

  function NotCompleted(): UploadItem -> bool {
    (it: UploadItem) => it.status != Completed
  }

  /** `clearCompleted`: exactly the completed items go, the rest stay in order. */
  function ClearCompleted(queue: seq<UploadItem>): (r: seq<UploadItem>)
    ensures forall it :: it in r <==> it in queue && it.status != Completed
  {
    forall it ensures it in Filter(queue, NotCompleted()) <==> it in queue && it.status != Completed {
      FilterIn(queue, NotCompleted(), it);
    }
    Filter(queue, NotCompleted())
  }

  /** Clearing keeps the order of what stays: it is the queue with the completed items filtered out. */
  lemma ClearCompletedSplits(a: seq<UploadItem>, b: seq<UploadItem>)
    ensures ClearCompleted(a + b) == ClearCompleted(a) + ClearCompleted(b)
  {
    FilterConcat(a, b, NotCompleted());
  }

  /** The items `addToQueue` makes: id `<name>-<time>`, progress 0, queued. */
  function NewItems(fileNames: seq<string>, now: int): (items: seq<UploadItem>)
    ensures |items| == |fileNames|
    ensures forall i :: 0 <= i < |items| ==>
              items[i] == UploadItem(fileNames[i] + "-" + IntToString(now), fileNames[i], 0, Queued)
  {
    seq(|fileNames|, i requires 0 <= i < |fileNames| => UploadItem(fileNames[i] + "-" + IntToString(now), fileNames[i], 0, Queued))
  }

  function IsQueued(): UploadItem -> bool {
    (it: UploadItem) => it.status == Queued
  }

  /** The ids of a list of items. */
  function IdsOf(items: seq<UploadItem>): set<string>
    decreases |items|
  {
    if items == [] then {} else IdsOf(items[..|items| - 1]) + {items[|items| - 1].id}
  }

  lemma {:induction false} IdsOfMember(items: seq<UploadItem>, id: string)
    ensures id in IdsOf(items) <==> exists k :: 0 <= k < |items| && items[k].id == id
    decreases |items|
  {
    if items != [] {
      var init := items[..|items| - 1];
      IdsOfMember(init, id);
      if id in IdsOf(init) {
        var k :| 0 <= k < |init| && init[k].id == id;
        assert items[k].id == id;
      }
      if k :| 0 <= k < |items| - 1 && items[k].id == id {
        assert init[k].id == id;
      }
    }
  }

  /** The state an item ends in once processed. */
  function Finished(it: UploadItem): UploadItem {
    it.(status := Completed, progress := 100)
  }

  function IdIn(ids: set<string>): UploadItem -> bool {
    (it: UploadItem) => it.id in ids
  }

  /** The queue after the items carrying one of `ids` have been processed: those end completed at 100. */
  function Processed(queue: seq<UploadItem>, ids: set<string>): seq<UploadItem> {
    MapWhere(queue, IdIn(ids), Finished)
  }

  /** Only the items carrying one of the ids change, and they end completed at 100. */
  lemma ProcessedSpec(queue: seq<UploadItem>, ids: set<string>)
    ensures |Processed(queue, ids)| == |queue|
    ensures forall j :: 0 <= j < |queue| ==>
              Processed(queue, ids)[j] == if queue[j].id in ids then Finished(queue[j]) else queue[j]
  {
  }

  /** Processing is cumulative: processing `a` and then `b` is processing both. */
  lemma ProcessedCompose(queue: seq<UploadItem>, a: set<string>, b: set<string>)
    ensures Processed(Processed(queue, a), b) == Processed(queue, a + b)
  {
    var l, r := Processed(Processed(queue, a), b), Processed(queue, a + b);
    ProcessedSpec(queue, a);
    ProcessedSpec(Processed(queue, a), b);
    ProcessedSpec(queue, a + b);
    assert forall j :: 0 <= j < |l| ==> l[j] == r[j];
  }

  function Render(n: Notice): NotificationInput {
    match n
    case FilesAdded(count) =>
      NotificationInput(None, IntToString(count) + " file(s) added to upload queue.", Info, None)
    case UploadStarted(it) =>
      NotificationInput(Some("upload-start-" + it.id), "Starting upload for " + it.fileName, Info, None)
    case UploadDone(it) =>
      NotificationInput(Some("upload-complete-" + it.id), it.fileName + " uploaded successfully!", Success, None)
  }

  /** The simulated upload advances the progress ten times by 10. */
  const ProgressSteps: nat := 10

  /** The progress updates of one item: 10, 20, …, 10·k, in that order. */
  function ProgressLog(id: string, k: nat): (log: seq<Update>)
    ensures |log| == k
    ensures forall m :: 0 <= m < k ==> log[m] == ProgressSet(id, 10 * (m + 1))
  {
    seq(k, m requires 0 <= m < k => ProgressSet(id, 10 * (m + 1)))
  }

  lemma ProgressLogSnoc(id: string, k: nat)
    ensures ProgressLog(id, k + 1) == ProgressLog(id, k) + [ProgressSet(id, 10 * (k + 1))]
  {
    assert ProgressLog(id, k + 1)[..k] == ProgressLog(id, k);
  }

  /** What processing one item requests, in order. */
  function ItemLog(it: UploadItem): seq<Update> {
    [StatusSet(it.id, Uploading), Notify(UploadStarted(it))] + ProgressLog(it.id, ProgressSteps)
    + [StatusSet(it.id, Completed), Notify(UploadDone(it))]
  }

  function ItemsLog(items: seq<UploadItem>): seq<Update>
    decreases |items|
  {
    if items == [] then [] else ItemsLog(items[..|items| - 1]) + ItemLog(items[|items| - 1])
  }

  lemma ItemsLogSnoc(items: seq<UploadItem>, i: nat)
    requires i < |items|
    ensures ItemsLog(items[..i + 1]) == ItemsLog(items[..i]) + ItemLog(items[i])
    ensures IdsOf(items[..i + 1]) == IdsOf(items[..i]) + {items[i].id}
  {
    assert items[..i + 1][..i] == items[..i];
  }

  /** Each item goes queued → uploading → completed, with its progress set to 10, 20, …, 100 in between. */
  lemma ItemLogShape(it: UploadItem)
    ensures var log := ItemLog(it);
            |log| == 14 && log[0] == StatusSet(it.id, Uploading) && log[12] == StatusSet(it.id, Completed)
            && (forall m :: 2 <= m < 12 ==> log[m] == ProgressSet(it.id, 10 * (m - 1)))
            && log[11] == ProgressSet(it.id, 100)
  {
  }

  class Uploads {
    var queue: seq<UploadItem>
    var isUploading: bool
    /** The store updates and notification requests made so far. */
    var updates: seq<Update>

    constructor()
      ensures queue == [] && !isUploading && updates == []
    {
      queue, isUploading, updates := [], false, [];
    }

    /** `addToQueue`: the new items after the existing ones, and one notification. */
    method AddToQueue(fileNames: seq<string>, now: int)
      modifies this
      ensures queue == old(queue) + NewItems(fileNames, now)
      ensures isUploading == old(isUploading)
      ensures updates == old(updates) + [Notify(FilesAdded(|fileNames|))]
    {
      queue := queue + NewItems(fileNames, now);
      updates := updates + [Notify(FilesAdded(|fileNames|))];
    }

    /** The simulated upload of one item: its progress goes 10, 20, …, 100, nothing else changes. */
    method AdvanceProgress(id: string)
      modifies this`queue, this`updates
      ensures queue == UpdateProgress(old(queue), id, 10 * ProgressSteps)
      ensures updates == old(updates) + ProgressLog(id, ProgressSteps)
    {
      var progress := 0;
      ghost var steps := 0;
      while progress < 100
        invariant 0 <= steps <= ProgressSteps && progress == 10 * steps
        invariant queue == if steps == 0 then old(queue) else UpdateProgress(old(queue), id, progress)
        invariant updates == old(updates) + ProgressLog(id, steps)
      {
        ProgressLogSnoc(id, steps);
        ConcatAssoc(old(updates), ProgressLog(id, steps), [ProgressSet(id, progress + 10)]);
        UpdateProgressTwice(old(queue), id, progress, progress + 10);
        progress, steps := progress + 10, steps + 1;
        queue := UpdateProgress(queue, id, progress);
        updates := updates + [ProgressSet(id, progress)];
      }
    }

    /** One pass of the processing loop: uploading, ten progress steps, completed. */
    method ProcessItem(it: UploadItem)
      modifies this`queue, this`updates
      ensures queue == Processed(old(queue), {it.id})
      ensures updates == old(updates) + ItemLog(it)
    {
      var started := [StatusSet(it.id, Uploading), Notify(UploadStarted(it))];
      var done := [StatusSet(it.id, Completed), Notify(UploadDone(it))];
      queue := SetItemStatus(queue, it.id, Uploading);
      updates := updates + started;
      AdvanceProgress(it.id);
      queue := SetItemStatus(queue, it.id, Completed);
      updates := updates + done;
      assert updates == old(updates) + (started + ProgressLog(it.id, ProgressSteps) + done);
      ProcessedSpec(old(queue), {it.id});
      assert forall j :: 0 <= j < |queue| ==> queue[j] == Processed(old(queue), {it.id})[j];
    }

    /** The processing loop over a snapshot of the queued items, in their order. */
    method ProcessItems(items: seq<UploadItem>)
      modifies this`queue, this`updates
      ensures queue == Processed(old(queue), IdsOf(items))
      ensures updates == old(updates) + ItemsLog(items)
    {
      for i := 0 to |items|
        invariant queue == Processed(old(queue), IdsOf(items[..i]))
        invariant updates == old(updates) + ItemsLog(items[..i])
      {
        ProcessItem(items[i]);
        ProcessedCompose(old(queue), IdsOf(items[..i]), {items[i].id});
        ItemsLogSnoc(items, i);
        assert updates == old(updates) + (ItemsLog(items[..i]) + ItemLog(items[i]));
      }
      assert items[..|items|] == items;
    }

    /**
     * `processQueue`: the items queued at the start are processed in queue order; an
     * item whose id one of them carries ends completed at 100, every other item is
     * left alone. With nothing queued, nothing happens.
     */
    method ProcessQueue()
      modifies this
      ensures var items := Filter(old(queue), IsQueued());
              if items == [] then
                queue == old(queue) && isUploading == old(isUploading) && updates == old(updates)
              else
                && !isUploading
                && updates == old(updates) + [UploadingFlag(true)] + ItemsLog(items) + [UploadingFlag(false)]
                && queue == Processed(old(queue), IdsOf(items))
    {
      var q0 := queue;
      var items := Filter(queue, IsQueued());
      if items == [] {
        return;
      }
      isUploading := true;
      updates := updates + [UploadingFlag(true)];
      ProcessItems(items);
      isUploading := false;
      updates := updates + [UploadingFlag(false)];
    }
  }

  /**
   * With distinct ids, the items processing changes are exactly those that were queued:
   * no item outside the queued ones is touched.
   */
  lemma OnlyQueuedTouched(queue: seq<UploadItem>, j: nat)
    requires forall a, b :: 0 <= a < b < |queue| ==> queue[a].id != queue[b].id
    requires j < |queue|
    ensures queue[j].id in IdsOf(Filter(queue, IsQueued())) <==> queue[j].status == Queued
  {
    var items := Filter(queue, IsQueued());
    FilterIn(queue, IsQueued(), queue[j]);
    IdsOfMember(items, queue[j].id);
    if queue[j].id in IdsOf(items) {
      var k :| 0 <= k < |items| && items[k].id == queue[j].id;
      var it := items[k];
      FilterIn(queue, IsQueued(), it);
      var a :| 0 <= a < |queue| && queue[a] == it;
      assert a == j;
    }
  }
}
