# minikube kubeconfig projection, modelled in Dafny

minikube keeps the shared client configuration document ("kubeconfig") up to
date with one entry per cluster it runs. `PopulateFromSettings` takes a
`Settings` record and writes three entries into an in-memory document:
- one cluster (server address and CA trust material);
- one credential, called an AuthInfo (client certificate and key);
- one context (which binds the cluster, the credential and a namespace).

All three are keyed by the cluster name. With `EmbedCerts` the certificate
files are read and their bytes are inlined; otherwise their paths are stored
by reference. Unless `KeepContext` is set, the document's current context
becomes the cluster name. A failed certificate read returns at once and
leaves behind what was already written. The cluster and the context are
stamped with a provenance extension (creator `minikube.sigs.k8s.io`, time of
the call).

- `api.dfy` (module `Api`): the document types. `Config` is a class whose
  three tables are `map` fields updated in place, plus the current-context
  field; `Snapshot()` gives its value as a `Document`.
- `kubeconfig.dfy` (module `Kubeconfig`): `Settings`, and the file-read
  collaborator `FileReader`. A path in its table reads successfully; every
  read is appended to its `log`. It also holds:
  - `Projection`, a case-by-case reference definition of the projection;
  - the imperative `PopulateFromSettings`, which mirrors the source step by
    step and is proved to produce exactly `Projection`'s document, error and
    read log;
  - lemmas for each property of the projection.
- `updates.dfy` (module `Updates`): `Update` calls on one file, in the order
  the file lock serializes them. Each call persists the projected document
  only if the projection succeeded. The lemmas are about sequences of such
  calls.

The clock reading (`time.Now().String()`) is the `now` parameter. The error
returned by a failed read is `ReadError(file, path)`: which certificate, and
the path that failed.

## Model

| member | source | states |
|---|---|---|
| `Kubeconfig.PopulateFromSettings` | pkg/minikube/kubeconfig/settings.go:75-131 | The new document, the returned error and the sequence of files read are exactly those of the reference projection, applied to the document as it was before the call. |
| `Kubeconfig.FileReader.ReadFile` | pkg/minikube/kubeconfig/settings.go:80-84 | A read of a readable path returns its bytes, and a read of any other path fails. Every read is recorded in the log. |
| `Kubeconfig.SucceedsIff` | pkg/minikube/kubeconfig/settings.go:80-113 | The projection succeeds exactly when it does not embed, or when the CA, certificate and key files are all readable. This holds whatever the document held, because nothing else is validated. |
| `Kubeconfig.ReferenceModeStoresPaths` | pkg/minikube/kubeconfig/settings.go:80-113 | Without embedding, no file is read and the projection succeeds. The CA, certificate and key paths are stored verbatim, and no certificate data is stored. |
| `Kubeconfig.EmbedModeStoresBytes` | pkg/minikube/kubeconfig/settings.go:80-109 | With embedding and all files readable, the CA, certificate and key are read in that order. The entries hold exactly those files' bytes, and the path fields are empty. |
| `Kubeconfig.SuccessInstallsTriple` | pkg/minikube/kubeconfig/settings.go:77-123 | On success, all three tables have an entry under the cluster name. The cluster's server is the settings' address. The context's cluster and credential are both the cluster name, and its namespace is the settings' namespace. |
| `Kubeconfig.CurrentContextRule` | pkg/minikube/kubeconfig/settings.go:125-128 | After the call, the current context is the cluster name if the call succeeded and `KeepContext` is false. Otherwise it is unchanged, whatever it held before. |
| `Kubeconfig.CaReadFailureChangesNothing` | pkg/minikube/kubeconfig/settings.go:80-84 | An unreadable CA file is the only file read. The error names it, and the document is unchanged. |
| `Kubeconfig.ClientReadFailureKeepsCluster` | pkg/minikube/kubeconfig/settings.go:96-109 | If the client certificate or key is unreadable, the error names the failing path, trying the certificate first. After a certificate failure the key is never read. The cluster entry has already been replaced. The credential table, the context table and the current context are unchanged. |
| `Kubeconfig.OtherKeysUntouched` | pkg/minikube/kubeconfig/settings.go:96-123 | In all three tables, presence and entry are unchanged under every key other than the cluster name. |
| `Kubeconfig.EntriesReplacedWholesale` | pkg/minikube/kubeconfig/settings.go:78-123 | The three entries written under the cluster name are the same whatever the document held before. Old entries are replaced, never merged. |
| `Kubeconfig.StampsWritten` | pkg/minikube/kubeconfig/settings.go:89-122 | On success, the cluster's extensions are exactly `{"cluster_info": stamp}` and the context's are exactly `{"context_info": stamp}`. Both stamps have creator `minikube.sigs.k8s.io` and the same timestamp. The credential carries no extension. |
| `Updates.FailedUpdatePersistsNothing` | pkg/minikube/kubeconfig/settings.go:152-155 | An Update whose projection fails leaves the file's document exactly as it was. |
| `Updates.ApplyUpdates` | pkg/minikube/kubeconfig/settings.go:136-162 | Over a sequence of Update calls, no entry is ever removed. Each table ends with exactly its old keys plus the cluster names of the calls that succeeded. |
| `Updates.UntouchedKeysSurvive` | pkg/minikube/kubeconfig/settings.go:147-160 | If no call in a sequence names a key, that key's entries in all three tables are unchanged. |
| `Updates.DistinctUpdatesCoexist` | pkg/minikube/kubeconfig/settings.go:147-160 | Take successful Update calls with pairwise distinct cluster names. Afterwards every call's three entries are present, exactly as that call alone would have written them. |
| `Updates.SameNameLaterWins` | pkg/minikube/kubeconfig/settings.go:147-160 | Take two calls with the same cluster name, where the second succeeds. Afterwards the entries are exactly what the second call alone writes: nothing of the first is kept. |
| `Updates.CurrentContextAfterUpdates` | pkg/minikube/kubeconfig/settings.go:125-128 | After a sequence of calls, the current context is the cluster name of the last call that succeeded without `KeepContext`. If there was none, it is the prior value. |
| `Updates.KeptContextSurvives` | pkg/minikube/kubeconfig/settings.go:125-128 | If every call keeps the context, the current context survives the whole sequence unchanged. |

## Left out

- `Update`'s file lock, `readOrNew` and `writeToFile` (settings.go:136-162) are not modelled: they are cross-process locking and file I/O, and the last two are not part of this model. `Updates` keeps only their effect on the document: calls run in some serial order, and a failed projection writes nothing. Lock failures, load failures and write failures are not modelled.
- `SetPath`/`filePath` (settings.go:64-72) and the `kubeConfigFile` field are not modelled: they are an atomic store and load whose point is concurrent access.
- `ioutil.ReadFile` is a fixed table from readable paths to their bytes. Why a read fails (missing file, permissions) is not distinguished.
- `time.Now().String()` is the `now` parameter.
- `errors.Wrapf` message text is left out. The error carries which certificate failed and its path.
- `klog` logging is left out.
- The `DeepCopy` boilerplate and the `runtime.Object`/`TypeMeta` machinery of the stamp (settings.go:172-195) are left out. The stamp is a plain value. Extension tables can hold only this stamp type, because it is the only kind this package writes.
- The client library's record fields that this code never sets are left out: TLS flags, proxy, tokens, other extensions and so on. Each is at its zero value in every entry this code writes.
- Nil tables are not modelled. The document's tables always exist, as the library's constructor guarantees, so the nil-map panic cannot occur.
- An empty cluster name is not rejected: `PopulateFromSettings` never checks the name, so the model accepts any name, including the empty one.
