/** Pod templates and the revisions that record them. */
module Templates {
  import opened Kube

  /**
   * `rest` stands for every other field of the pod spec, and `beyond` for whatever a revision records outside
   * the template's spec and metadata.
   */
  datatype Template = Template(
    labels: Metadata,
    annotations: Metadata,
    containers: seq<Container>,
    rest: string,
    beyond: string)

  datatype Revision = Revision(name: string, number: int, data: Template)

  function Lookup(m: Metadata, k: Key): Option<string> {
    if k in m then Some(m[k]) else None
  }

  ghost predicate UniqueNames(containers: seq<Container>) {
    forall i, j | 0 <= i < j < |containers| :: containers[i].name != containers[j].name
  }
}
