/** The LangChain `Document` record shared by every component, and the one
    exception type (`ValueError`) the repository raises itself. */
module Documents {
  import opened Wrappers

  /** Metadata attached to a document by its loader (`source`, `title`, ...).
      Values are modelled as strings; Python truthiness of a string is
      "non-empty". */
  type Metadata = map<string, string>

  /** A chunk of text with provenance. `metadata` is `None` for an object that
      has no `metadata` attribute at all. */
  datatype Document = Document(pageContent: string, metadata: Option<Metadata>)

  /** `ValueError(message)` raised by the repository's own guards. */
  datatype Error = ValueError(message: string)

  /** `d.metadata if hasattr(d, "metadata") else {}` */
  function MetadataOf(d: Document): Metadata {
    match d.metadata
    case Some(meta) => meta
    case None => map[]
  }

  /** `meta.get(key)` read as a Python truth value: present and non-empty. */
  predicate HasTruthy(meta: Metadata, key: string) {
    key in meta && meta[key] != ""
  }
}
