// The status values of a training job and the documents of the training_jobs and job_history collections.
module JobStatus {

  datatype Status =
    | NOT_STARTED | PENDING | HALTED | FAILED | DEPLOY | DOWNLOADING | PROCESSING | STORING | COMPLETED | QUEUED

  /** The statuses on which an update erases the data stores and the image location. */
  predicate Terminal(s: Status) {
    s == COMPLETED || s == FAILED || s == HALTED
  }
}

module Records {
  import opened Wrappers
  import opened JobStatus
  import opened Entries

  datatype Framework = Framework(name: string, version: string, imageLocation: Option<string>)

  datatype ModelDefinition = ModelDefinition(framework: Option<Framework>)

  /** GPUs are per learner; fractions are exact here. */
  datatype Resources = Resources(gpuType: string, gpus: real, learners: int)

  datatype Training = Training(resources: Option<Resources>, inputData: seq<string>, outputData: seq<string>)

  datatype Datastore = Datastore(id: string, connection: map<string, string>, fields: map<string, string>)

  datatype TrainingStatus = TrainingStatus(
    status: Status, message: string, errorCode: string,
    submission: string, completion: string, downloadStart: string, processStart: string, storeStart: string)

  /** `docId` is the Mongo `_id`, absent until the record has been inserted. */
  datatype TrainingRecord = TrainingRecord(
    docId: Option<nat>, trainingID: TrainingId, userID: string, jobID: string,
    model: Option<ModelDefinition>, training: Option<Training>, datastores: seq<Datastore>,
    status: Option<TrainingStatus>, evaluationMetrics: string, zone: string, deleted: bool)

  /** The record has all the parts the handlers dereference. */
  predicate Complete(r: TrainingRecord) {
    r.status.Some? && r.training.Some? && r.training.value.resources.Some?
    && r.model.Some? && r.model.value.framework.Some?
  }

  /** An absent `timestamp`, `status`, `message` or `errorCode` is the empty string or NOT_STARTED. */
  datatype HistoryEntry = HistoryEntry(
    trainingID: TrainingId, timestamp: string, status: Status, message: string, errorCode: string)
}
