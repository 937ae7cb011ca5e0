/** Resource quantities and the approval decision (app/registry/resources.py, app/registry/approval.py). */
module Resources {

  import opened Options

  datatype Resources = Resources(cpuM: int, memoryBytes: int, gpu: bool, diskBytes: int)

  /** `Resources.exceeds`: the request needs an admin given what was approved before. */
  predicate Exceeds(r: Resources, approved: Option<Resources>) {
    approved.None?
    || r.cpuM > approved.value.cpuM
    || r.memoryBytes > approved.value.memoryBytes
    || r.diskBytes > approved.value.diskBytes
    || (r.gpu && !approved.value.gpu)
  }

  /** The pointwise order the decision is about. */
  ghost predicate Within(r: Resources, bound: Resources) {
    && r.cpuM <= bound.cpuM
    && r.memoryBytes <= bound.memoryBytes
    && r.diskBytes <= bound.diskBytes
    && (r.gpu ==> bound.gpu)
  }
}
