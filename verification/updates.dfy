/**
 * Update calls against one kubeconfig file, taken in the order the file lock
 * serializes them. Each call loads the document, projects its settings into
 * it and persists the result only when the projection succeeded; on a failed
 * projection nothing is written, so the file keeps its previous document.
 * Loading and persisting are the identity on the document here: the file's
 * format and the lock itself are not part of this model.
 */
module Updates {
  import opened Api
  import opened Kubeconfig

  /** One Update call: the settings it installs and the clock reading it takes. */
  datatype Call = Call(settings: Settings, now: string)

  /** The document on disk after one Update call starting from `disk`. */
  function Persisted(disk: Document, c: Call, files: map<Path, Bytes>): Document
  {
    var out := Projection(c.settings, disk, files, c.now);
    if out.err == None then out.doc else disk
  }

  /** The cluster names installed by the calls that succeed. */
  function InstalledNames(calls: seq<Call>, files: map<Path, Bytes>): set<string>
  {
    set i | 0 <= i < |calls| && Succeeds(calls[i].settings, files) :: calls[i].settings.clusterName
  }

  /**
   * The document on disk after the calls, in order. No entry is ever
   * removed: each table ends with exactly its old keys plus the names of the
   * calls that succeeded.
   */
  function ApplyUpdates(disk: Document, calls: seq<Call>, files: map<Path, Bytes>): (r: Document)
    ensures r.clusters.Keys == disk.clusters.Keys + InstalledNames(calls, files)
    ensures r.authInfos.Keys == disk.authInfos.Keys + InstalledNames(calls, files)
    ensures r.contexts.Keys == disk.contexts.Keys + InstalledNames(calls, files)
    decreases |calls|
  {
    if calls == [] then disk
    else
      var mid := Persisted(disk, calls[0], files);
      PersistedKeys(disk, calls[0], files);
      InstalledNamesSplit(calls, 1, files);
      assert InstalledNames(calls[..1], files) == InstalledNames([calls[0]], files);
      ApplyUpdates(mid, calls[1..], files)
  }

  /** One call adds its cluster name to each table's keys exactly when it succeeds. */
  lemma PersistedKeys(disk: Document, c: Call, files: map<Path, Bytes>)
    ensures var d, added := Persisted(disk, c, files), InstalledNames([c], files);
      && added == (if Succeeds(c.settings, files) then {c.settings.clusterName} else {})
      && d.clusters.Keys == disk.clusters.Keys + added
      && d.authInfos.Keys == disk.authInfos.Keys + added
      && d.contexts.Keys == disk.contexts.Keys + added
  {
    assert [c][0] == c;
  }

  /** Splitting the calls splits the installed names. */
  lemma InstalledNamesSplit(calls: seq<Call>, n: nat, files: map<Path, Bytes>)
    requires n <= |calls|
    ensures InstalledNames(calls, files) == InstalledNames(calls[..n], files) + InstalledNames(calls[n..], files)
  {
    var a, b := calls[..n], calls[n..];
    forall x | x in InstalledNames(calls, files)
      ensures x in InstalledNames(a, files) + InstalledNames(b, files)
    {
      var i :| 0 <= i < |calls| && Succeeds(calls[i].settings, files) && calls[i].settings.clusterName == x;
      if i < n {
        assert a[i] == calls[i];
      } else {
        assert b[i - n] == calls[i];
      }
    }
    forall x | x in InstalledNames(a, files) + InstalledNames(b, files)
      ensures x in InstalledNames(calls, files)
    {
      if x in InstalledNames(a, files) {
        var i :| 0 <= i < |a| && Succeeds(a[i].settings, files) && a[i].settings.clusterName == x;
        assert calls[i] == a[i];
      } else {
        var i :| 0 <= i < |b| && Succeeds(b[i].settings, files) && b[i].settings.clusterName == x;
        assert calls[n + i] == b[i];
      }
    }
  }

  /** A call whose projection fails leaves the file's document exactly as it was. */
  lemma FailedUpdatePersistsNothing(disk: Document, c: Call, files: map<Path, Bytes>)
    requires !Succeeds(c.settings, files)
    ensures Persisted(disk, c, files) == disk
  {
  }

  /**
   * A second call for the same cluster name replaces all three entries of the
   * first wholesale: they are what the second call alone would write.
   */
  lemma SameNameLaterWins(disk: Document, c1: Call, c2: Call, files: map<Path, Bytes>)
    requires c1.settings.clusterName == c2.settings.clusterName
    requires Succeeds(c2.settings, files)
    ensures var n, d := c2.settings.clusterName, ApplyUpdates(disk, [c1, c2], files);
      var alone := Projection(c2.settings, disk, files, c2.now).doc;
      && n in d.clusters && d.clusters[n] == alone.clusters[n]
      && n in d.authInfos && d.authInfos[n] == alone.authInfos[n]
      && n in d.contexts && d.contexts[n] == alone.contexts[n]
  {
    var mid := Persisted(disk, c1, files);
    assert ApplyUpdates(disk, [c1, c2], files) == ApplyUpdates(mid, [c2], files);
    assert [c1, c2][1..] == [c2];
    assert ApplyUpdates(mid, [c2], files) == Persisted(mid, c2, files);
    EntriesReplacedWholesale(c2.settings, mid, disk, files, c2.now);
  }

  /** Keys no call names keep their entries, in all three tables. */
  lemma {:induction false} UntouchedKeysSurvive(disk: Document, calls: seq<Call>, files: map<Path, Bytes>, k: string)
    requires forall i :: 0 <= i < |calls| ==> calls[i].settings.clusterName != k
    ensures var d := ApplyUpdates(disk, calls, files);
      && (k in d.clusters ==> d.clusters[k] == disk.clusters[k])
      && (k in d.authInfos ==> d.authInfos[k] == disk.authInfos[k])
      && (k in d.contexts ==> d.contexts[k] == disk.contexts[k])
    decreases |calls|
  {
    if calls != [] {
      var mid := Persisted(disk, calls[0], files);
      OtherKeysUntouched(calls[0].settings, disk, files, calls[0].now, k);
      UntouchedKeysSurvive(mid, calls[1..], files, k);
    }
  }

  /**
   * Updates with pairwise distinct cluster names that all succeed coexist:
   * afterwards every call's three entries are present exactly as that call
   * alone would have written them.
   */
  lemma {:induction false} DistinctUpdatesCoexist(disk: Document, calls: seq<Call>, files: map<Path, Bytes>, i: nat)
    requires forall j :: 0 <= j < |calls| ==> Succeeds(calls[j].settings, files)
    requires forall j, l :: 0 <= j < l < |calls| ==> calls[j].settings.clusterName != calls[l].settings.clusterName
    requires i < |calls|
    ensures var n, d := calls[i].settings.clusterName, ApplyUpdates(disk, calls, files);
      var alone := Projection(calls[i].settings, disk, files, calls[i].now).doc;
      && n in d.clusters && d.clusters[n] == alone.clusters[n]
      && n in d.authInfos && d.authInfos[n] == alone.authInfos[n]
      && n in d.contexts && d.contexts[n] == alone.contexts[n]
    decreases |calls|
  {
    var mid := Persisted(disk, calls[0], files);
    var n := calls[i].settings.clusterName;
    assert n in InstalledNames(calls, files);
    if i == 0 {
      forall j | 0 <= j < |calls[1..]|
        ensures calls[1..][j].settings.clusterName != n
      {
        assert calls[1..][j] == calls[j + 1];
      }
      UntouchedKeysSurvive(mid, calls[1..], files, n);
      SuccessInstallsTriple(calls[0].settings, disk, files, calls[0].now);
    } else {
      DistinctUpdatesCoexist(mid, calls[1..], files, i - 1);
      assert calls[1..][i - 1] == calls[i];
      SuccessInstallsTriple(calls[i].settings, mid, files, calls[i].now);
      EntriesReplacedWholesale(calls[i].settings, mid, disk, files, calls[i].now);
    }
  }

  /** Appending a call to the sequence applies it last. */
  lemma {:induction false} ApplyUpdatesSnoc(disk: Document, calls: seq<Call>, c: Call, files: map<Path, Bytes>)
    ensures ApplyUpdates(disk, calls + [c], files) == Persisted(ApplyUpdates(disk, calls, files), c, files)
    decreases |calls|
  {
    if calls == [] {
      assert [] + [c] == [c];
      assert [c][1..] == [];
    } else {
      assert (calls + [c])[0] == calls[0];
      assert (calls + [c])[1..] == calls[1..] + [c];
      ApplyUpdatesSnoc(Persisted(disk, calls[0], files), calls[1..], c, files);
    }
  }

  /**
   * The context selected after the calls: that of the last call that
   * succeeded without keeping the current context, or `prior` if there is none.
   */
  function LastSelected(calls: seq<Call>, files: map<Path, Bytes>, prior: string): string
    decreases |calls|
  {
    if calls == [] then prior
    else
      var c := calls[|calls| - 1];
      if Succeeds(c.settings, files) && !c.settings.keepContext then c.settings.clusterName
      else LastSelected(calls[..|calls| - 1], files, prior)
  }

  /**
   * The current context after a sequence of updates is the one selected by
   * the last switching call; calls that keep the context, and calls that
   * fail, never move it.
   */
  lemma {:induction false} CurrentContextAfterUpdates(disk: Document, calls: seq<Call>, files: map<Path, Bytes>)
    ensures ApplyUpdates(disk, calls, files).currentContext == LastSelected(calls, files, disk.currentContext)
    decreases |calls|
  {
    if calls != [] {
      var init, c := calls[..|calls| - 1], calls[|calls| - 1];
      assert calls == init + [c];
      ApplyUpdatesSnoc(disk, init, c, files);
      CurrentContextAfterUpdates(disk, init, files);
      CurrentContextRule(c.settings, ApplyUpdates(disk, init, files), files, c.now);
    }
  }

  /** If every call keeps the current context, it survives the whole sequence. */
  lemma {:induction false} KeptContextSurvives(disk: Document, calls: seq<Call>, files: map<Path, Bytes>)
    requires forall i :: 0 <= i < |calls| ==> calls[i].settings.keepContext
    ensures ApplyUpdates(disk, calls, files).currentContext == disk.currentContext
    decreases |calls|
  {
    if calls != [] {
      CurrentContextRule(calls[0].settings, disk, files, calls[0].now);
      KeptContextSurvives(Persisted(disk, calls[0], files), calls[1..], files);
    }
  }
}
