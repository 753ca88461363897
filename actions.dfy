/** The action creators `addToBatch` and `commitBatch`. */
module Actions {
  import opened BatchTypes

  datatype Action = AddToBatchAction(batchId: string, request: Request) | CommitBatchAction(batchId: string)

  /** The `type` property of an action: the name of the control that handles it. */
  function TypeOf(a: Action): string {
    match a
    case AddToBatchAction(_, _) => "ADD_TO_BATCH"
    case CommitBatchAction(_) => "COMMIT_BATCH"
  }

  function AddToBatch(batchId: string, request: Request): (a: Action)
    ensures TypeOf(a) == "ADD_TO_BATCH"
    ensures a.AddToBatchAction? && a.batchId == batchId && a.request == request
  {
    AddToBatchAction(batchId, request)
  }

  function CommitBatch(batchId: string): (a: Action)
    ensures TypeOf(a) == "COMMIT_BATCH"
    ensures a.CommitBatchAction? && a.batchId == batchId
  {
    CommitBatchAction(batchId)
  }
}
