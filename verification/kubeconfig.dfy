/**
 * Projection of one minikube settings record into a kubeconfig document:
 * one cluster entry, one credential entry and one context entry, all keyed by
 * the cluster name, with certificates either embedded or referenced by path,
 * and the current context switched unless asked to keep it.
 *
 * The two outside dependencies are parameters: file reads go through a
 * FileReader over a fixed table of readable files, and the clock reading is
 * the `now` string.
 */
module Kubeconfig {
  import opened Api

  type Path = string

  /** What to install: one cluster/credential/context triple. */
  datatype Settings = Settings(
    clusterName: string,
    namespace: string,
    clusterServerAddress: string,
    clientCertificate: Path,
    certificateAuthority: Path,
    clientKey: Path,
    keepContext: bool,
    embedCerts: bool)

  /** Creator tag written into every provenance stamp. */
  const CreatedBy := "minikube.sigs.k8s.io"
  /** Extension key of the stamp on the cluster entry. */
  const ClusterInfo := "cluster_info"
  /** Extension key of the stamp on the context entry. */
  const ContextInfo := "context_info"

  /** Which certificate file a read failure concerns. */
  datatype CertFile = CertificateAuthority | ClientCertificate | ClientKey

  /** A failed certificate read, naming the file and its path. */
  datatype ReadError = ReadError(file: CertFile, path: Path)

  /**
   * The file-reading collaborator. A path in `files` reads successfully with
   * those bytes; any other path fails to read. `log` records every path
   * requested, in order, so the model can say which files were read.
   */
  class FileReader {
    const files: map<Path, Bytes>
    var log: seq<Path>

    constructor (files: map<Path, Bytes>)
      ensures this.files == files && log == []
    {
      this.files := files;
      log := [];
    }

    method ReadFile(path: Path) returns (r: Option<Bytes>)
      modifies this
      ensures log == old(log) + [path]
      ensures path in files ==> r == Some(files[path])
      ensures path !in files ==> r == None
    {
      log := log + [path];
      if path in files {
        r := Some(files[path]);
      } else {
        r := None;
      }
    }
  }

  /** The provenance stamp, taken once per projection from `now`. */
  function Stamp(now: string): Extension
  {
    Extension(CreatedBy, now)
  }

  /**
   * The cluster entry for `s`: its server address, and the CA either by path
   * (not embedding) or as `caData` (embedding), plus the cluster stamp.
   */
  function ClusterEntry(s: Settings, caData: Bytes, now: string): Cluster
  {
    Cluster(
      s.clusterServerAddress,
      if s.embedCerts then "" else s.certificateAuthority,
      caData,
      map[ClusterInfo := Stamp(now)])
  }

  /** The credential entry for `s`, holding certificate and key by path or as data. */
  function AuthInfoEntry(s: Settings, certData: Bytes, keyData: Bytes): AuthInfo
  {
    AuthInfo(
      if s.embedCerts then "" else s.clientCertificate,
      certData,
      if s.embedCerts then "" else s.clientKey,
      keyData,
      map[])
  }

  /** The context entry for `s`: both references are the cluster name. */
  function ContextEntry(s: Settings, now: string): Context
  {
    Context(s.clusterName, s.clusterName, s.namespace, map[ContextInfo := Stamp(now)])
  }

  /** `doc` with all three entries for `s` installed and the selector decided. */
  function Installed(doc: Document, s: Settings, cluster: Cluster, user: AuthInfo, now: string): Document
  {
    Document(
      doc.clusters[s.clusterName := cluster],
      doc.authInfos[s.clusterName := user],
      doc.contexts[s.clusterName := ContextEntry(s, now)],
      if s.keepContext then doc.currentContext else s.clusterName)
  }

  /** What one projection produces: the new document, its error, and the files it read. */
  datatype Outcome = Outcome(doc: Document, err: Option<ReadError>, fileReads: seq<Path>)

  /**
   * Reference definition of the projection, case by case: no embedding;
   * embedding with the CA unreadable; with the client certificate
   * unreadable; with the client key unreadable; embedding with every read
   * succeeding.
   */
  function Projection(s: Settings, doc: Document, files: map<Path, Bytes>, now: string): Outcome
  {
    var ca, cert, key := s.certificateAuthority, s.clientCertificate, s.clientKey;
    if !s.embedCerts then
      Outcome(Installed(doc, s, ClusterEntry(s, [], now), AuthInfoEntry(s, [], []), now), None, [])
    else if ca !in files then
      Outcome(doc, Some(ReadError(CertificateAuthority, ca)), [ca])
    else
      var cluster := ClusterEntry(s, files[ca], now);
      var withCluster := doc.(clusters := doc.clusters[s.clusterName := cluster]);
      if cert !in files then
        Outcome(withCluster, Some(ReadError(ClientCertificate, cert)), [ca, cert])
      else if key !in files then
        Outcome(withCluster, Some(ReadError(ClientKey, key)), [ca, cert, key])
      else
        Outcome(Installed(doc, s, cluster, AuthInfoEntry(s, files[cert], files[key]), now), None, [ca, cert, key])
  }

  /**
   * Populates `apiCfg` from `cfg`, step by step: build and write the cluster
   * entry, then the credential entry, then the context entry, then decide the
   * current context. A failed certificate read returns at once, leaving
   * whatever was already written.
   */
  method PopulateFromSettings(cfg: Settings, apiCfg: Config, reader: FileReader, now: string)
    returns (err: Option<ReadError>)
    modifies apiCfg, reader
    ensures apiCfg.Snapshot() == Projection(cfg, old(apiCfg.Snapshot()), reader.files, now).doc
    ensures err == Projection(cfg, old(apiCfg.Snapshot()), reader.files, now).err
    ensures reader.log == old(reader.log) + Projection(cfg, old(apiCfg.Snapshot()), reader.files, now).fileReads
  {
    var clusterName := cfg.clusterName;
    var cluster := NewCluster();
    cluster := cluster.(server := cfg.clusterServerAddress);
    if cfg.embedCerts {
      var data := reader.ReadFile(cfg.certificateAuthority);
      if data.None? {
        return Some(ReadError(CertificateAuthority, cfg.certificateAuthority));
      }
      cluster := cluster.(certificateAuthorityData := data.value);
    } else {
      cluster := cluster.(certificateAuthority := cfg.certificateAuthority);
    }

    var ext := Extension(CreatedBy, now);
    cluster := cluster.(extensions := map[ClusterInfo := ext]);
    apiCfg.clusters := apiCfg.clusters[clusterName := cluster];

    // user
    var userName := cfg.clusterName;
    var user := NewAuthInfo();
    if cfg.embedCerts {
      var certData := reader.ReadFile(cfg.clientCertificate);
      if certData.None? {
        return Some(ReadError(ClientCertificate, cfg.clientCertificate));
      }
      user := user.(clientCertificateData := certData.value);
      var keyData := reader.ReadFile(cfg.clientKey);
      if keyData.None? {
        return Some(ReadError(ClientKey, cfg.clientKey));
      }
      user := user.(clientKeyData := keyData.value);
    } else {
      user := user.(clientCertificate := cfg.clientCertificate, clientKey := cfg.clientKey);
    }
    apiCfg.authInfos := apiCfg.authInfos[userName := user];

    // context
    var contextName := cfg.clusterName;
    var context := NewContext();
    context := context.(cluster := cfg.clusterName, namespace := cfg.namespace, authInfo := userName);
    context := context.(extensions := map[ContextInfo := ext]);
    apiCfg.contexts := apiCfg.contexts[contextName := context];

    if !cfg.keepContext {
      apiCfg.currentContext := cfg.clusterName;
    }
    err := None;
  }

  // ---------------------------------------------------------------------
  // Properties of the projection
  // ---------------------------------------------------------------------

  /** Whether every file the settings ask to embed is readable. */
  predicate Succeeds(s: Settings, files: map<Path, Bytes>)
  {
    !s.embedCerts ||
    (s.certificateAuthority in files && s.clientCertificate in files && s.clientKey in files)
  }

  /**
   * The projection fails exactly when embedding and one of the three files
   * is unreadable, whatever the document held; no other input is validated.
   */
  lemma SucceedsIff(s: Settings, doc: Document, files: map<Path, Bytes>, now: string)
    ensures Projection(s, doc, files, now).err == None <==> Succeeds(s, files)
  {
  }

  /**
   * Without embedding nothing is read, the projection succeeds, and the
   * entries carry the three paths verbatim and no certificate data.
   */
  lemma ReferenceModeStoresPaths(s: Settings, doc: Document, files: map<Path, Bytes>, now: string)
    requires !s.embedCerts
    ensures var out := Projection(s, doc, files, now);
      && out.err == None
      && out.fileReads == []
      && out.doc.clusters[s.clusterName].certificateAuthority == s.certificateAuthority
      && out.doc.clusters[s.clusterName].certificateAuthorityData == []
      && out.doc.authInfos[s.clusterName].clientCertificate == s.clientCertificate
      && out.doc.authInfos[s.clusterName].clientKey == s.clientKey
      && out.doc.authInfos[s.clusterName].clientCertificateData == []
      && out.doc.authInfos[s.clusterName].clientKeyData == []
  {
  }

  /**
   * Embedding with every file readable: the CA, certificate and key are read
   * in that order, the entries hold exactly their bytes, and the path fields
   * are empty.
   */
  lemma EmbedModeStoresBytes(s: Settings, doc: Document, files: map<Path, Bytes>, now: string)
    requires s.embedCerts
    requires s.certificateAuthority in files && s.clientCertificate in files && s.clientKey in files
    ensures var out := Projection(s, doc, files, now);
      && out.err == None
      && out.fileReads == [s.certificateAuthority, s.clientCertificate, s.clientKey]
      && out.doc.clusters[s.clusterName].certificateAuthorityData == files[s.certificateAuthority]
      && out.doc.authInfos[s.clusterName].clientCertificateData == files[s.clientCertificate]
      && out.doc.authInfos[s.clusterName].clientKeyData == files[s.clientKey]
      && out.doc.clusters[s.clusterName].certificateAuthority == ""
      && out.doc.authInfos[s.clusterName].clientCertificate == ""
      && out.doc.authInfos[s.clusterName].clientKey == ""
  {
  }

  /**
   * On success all three tables hold an entry under the cluster name: the
   * cluster points at the server address, and the context names the cluster
   * and the credential by the cluster name, with the settings' namespace.
   */
  lemma SuccessInstallsTriple(s: Settings, doc: Document, files: map<Path, Bytes>, now: string)
    requires Projection(s, doc, files, now).err == None
    ensures var d := Projection(s, doc, files, now).doc;
      && s.clusterName in d.clusters
      && s.clusterName in d.authInfos
      && s.clusterName in d.contexts
      && d.clusters[s.clusterName].server == s.clusterServerAddress
      && d.contexts[s.clusterName].cluster == s.clusterName
      && d.contexts[s.clusterName].authInfo == s.clusterName
      && d.contexts[s.clusterName].namespace == s.namespace
  {
  }

  /**
   * The current context becomes the cluster name on success unless it is to
   * be kept; when kept, or when the projection fails, it is what it was.
   */
  lemma CurrentContextRule(s: Settings, doc: Document, files: map<Path, Bytes>, now: string)
    ensures var out := Projection(s, doc, files, now);
      out.doc.currentContext ==
        if out.err == None && !s.keepContext then s.clusterName else doc.currentContext
  {
  }

  /** An unreadable CA file is the only file read, is named by the error, and changes nothing. */
  lemma CaReadFailureChangesNothing(s: Settings, doc: Document, files: map<Path, Bytes>, now: string)
    requires s.embedCerts && s.certificateAuthority !in files
    ensures var out := Projection(s, doc, files, now);
      && out.err == Some(ReadError(CertificateAuthority, s.certificateAuthority))
      && out.fileReads == [s.certificateAuthority]
      && out.doc == doc
  {
  }

  /**
   * An unreadable client certificate or key is named by the error. The
   * cluster entry has already been replaced; the credential and context
   * tables and the current context are unchanged. The certificate is tried
   * first, and after its failure the key is never read.
   */
  lemma ClientReadFailureKeepsCluster(s: Settings, doc: Document, files: map<Path, Bytes>, now: string)
    requires s.embedCerts && s.certificateAuthority in files
    requires s.clientCertificate !in files || s.clientKey !in files
    ensures var out := Projection(s, doc, files, now);
      && out.err == (if s.clientCertificate !in files
                     then Some(ReadError(ClientCertificate, s.clientCertificate))
                     else Some(ReadError(ClientKey, s.clientKey)))
      && out.fileReads == (if s.clientCertificate !in files
                       then [s.certificateAuthority, s.clientCertificate]
                       else [s.certificateAuthority, s.clientCertificate, s.clientKey])
      && out.doc.clusters == doc.clusters[s.clusterName := ClusterEntry(s, files[s.certificateAuthority], now)]
      && out.doc.authInfos == doc.authInfos
      && out.doc.contexts == doc.contexts
      && out.doc.currentContext == doc.currentContext
  {
  }

  /** Entries under every other key are untouched, in all three tables. */
  lemma OtherKeysUntouched(s: Settings, doc: Document, files: map<Path, Bytes>, now: string, k: string)
    requires k != s.clusterName
    ensures var d := Projection(s, doc, files, now).doc;
      && (k in d.clusters <==> k in doc.clusters)
      && (k in d.clusters ==> d.clusters[k] == doc.clusters[k])
      && (k in d.authInfos <==> k in doc.authInfos)
      && (k in d.authInfos ==> d.authInfos[k] == doc.authInfos[k])
      && (k in d.contexts <==> k in doc.contexts)
      && (k in d.contexts ==> d.contexts[k] == doc.contexts[k])
  {
  }

  /**
   * The entries written under the cluster name do not depend on what the
   * document held before: they are replaced wholesale, never merged.
   */
  lemma EntriesReplacedWholesale(s: Settings, doc1: Document, doc2: Document, files: map<Path, Bytes>, now: string)
    requires Projection(s, doc1, files, now).err == None
    ensures var d1, d2 := Projection(s, doc1, files, now).doc, Projection(s, doc2, files, now).doc;
      && d1.clusters[s.clusterName] == d2.clusters[s.clusterName]
      && d1.authInfos[s.clusterName] == d2.authInfos[s.clusterName]
      && d1.contexts[s.clusterName] == d2.contexts[s.clusterName]
  {
  }

  /**
   * The cluster and context carry exactly one stamp each, under their own
   * keys; both stamps name minikube as creator and carry the same timestamp.
   * The credential entry carries no extension.
   */
  lemma StampsWritten(s: Settings, doc: Document, files: map<Path, Bytes>, now: string)
    requires Projection(s, doc, files, now).err == None
    ensures var d := Projection(s, doc, files, now).doc;
      && d.clusters[s.clusterName].extensions == map["cluster_info" := Extension("minikube.sigs.k8s.io", now)]
      && d.contexts[s.clusterName].extensions == map["context_info" := Extension("minikube.sigs.k8s.io", now)]
      && d.authInfos[s.clusterName].extensions == map[]
  {
  }
}
