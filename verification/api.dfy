/**
 * The in-memory client configuration document ("kubeconfig") that the
 * kubeconfig package edits: three keyed tables (clusters, credentials,
 * contexts) and the current-context selector. Only the fields this package
 * reads or writes are modelled; every other field of the client library's
 * records keeps its zero value here, as it does after the library's
 * NewCluster / NewAuthInfo / NewContext constructors.
 */
module Api {

  newtype Byte = b: int | 0 <= b < 256

  /** File contents, as returned by a file read. */
  type Bytes = seq<Byte>

  datatype Option<T> = None | Some(value: T)

  /**
   * An extension object attached to a cluster or context entry. The library
   * stores arbitrary runtime objects there; the only kind this package
   * writes is its provenance stamp (the package's internalExtension record),
   * so the model's extension values are that record.
   */
  datatype Extension = Extension(createdBy: string, lastUpdate: string)

  /** How to reach an API server: its address and its CA trust material. */
  datatype Cluster = Cluster(
    server: string,
    certificateAuthority: string,       // path to the CA file, by reference
    certificateAuthorityData: Bytes,    // CA file contents, embedded
    extensions: map<string, Extension>)

  /** Client authentication material: a certificate and its key. */
  datatype AuthInfo = AuthInfo(
    clientCertificate: string,
    clientCertificateData: Bytes,
    clientKey: string,
    clientKeyData: Bytes,
    extensions: map<string, Extension>)

  /** Binds a cluster entry and a credential entry with a namespace. */
  datatype Context = Context(
    cluster: string,
    authInfo: string,
    namespace: string,
    extensions: map<string, Extension>)

  /** The library's empty cluster record. */
  function NewCluster(): Cluster
  {
    Cluster("", "", [], map[])
  }

  /** The library's empty credential record. */
  function NewAuthInfo(): AuthInfo
  {
    AuthInfo("", [], "", [], map[])
  }

  /** The library's empty context record. */
  function NewContext(): Context
  {
    Context("", "", "", map[])
  }

  /** The value of a whole document at one moment. */
  datatype Document = Document(
    clusters: map<string, Cluster>,
    authInfos: map<string, AuthInfo>,
    contexts: map<string, Context>,
    currentContext: string)

  /**
   * The mutable document object (the library's Config), whose tables are
   * updated in place. Its tables always exist (the library's constructor
   * allocates them), so writing into them cannot fail.
   */
  class Config {
    var clusters: map<string, Cluster>
    var authInfos: map<string, AuthInfo>
    var contexts: map<string, Context>
    var currentContext: string

    /** The document this object currently holds. */
    function Snapshot(): Document
      reads this
    {
      Document(clusters, authInfos, contexts, currentContext)
    }
  }
}
