/** Where report and certificate artifacts are stored. */
module ArtifactKeys {
  import opened ArtifactChain
  import Text

  /** A generated job id is a fresh number, printed. */
  function Fields(k: Key): seq<string> {
    match k
    case ReportKey(client, audit, exec, agg, intel, rpt, job) =>
      ["reports", client, audit, exec, agg, intel, rpt, Text.Decimal(job), "artifact.json"]
    case CertKey(c, version, job) =>
      ["integrity", c.client, c.audit, c.exec, c.cfg, c.agg, c.intel, c.rpt, version, Text.Decimal(job), "artifact.json"]
  }

  function ObjectKey(k: Key): string {
    Text.Join(Fields(k), '/')
  }

  predicate SlashFree(k: Key) {
    match k
    case ReportKey(client, audit, exec, agg, intel, rpt, _) =>
      Text.AllFree([client, audit, exec, agg, intel, rpt], '/')
    case CertKey(c, version, _) =>
      Text.AllFree([c.client, c.audit, c.exec, c.cfg, c.agg, c.intel, c.rpt, version], '/')
  }

  lemma FieldsFree(k: Key)
    requires SlashFree(k)
    ensures Text.AllFree(Fields(k), '/')
  {
    Text.DecimalFree(k.job, '/');
    var f := Fields(k);
    var names := match k
                 case ReportKey(client, audit, exec, agg, intel, rpt, _) => [client, audit, exec, agg, intel, rpt]
                 case CertKey(c, version, _) => [c.client, c.audit, c.exec, c.cfg, c.agg, c.intel, c.rpt, version];
    forall i | 0 <= i < |f| ensures Text.Free(f[i], '/') {
      assert 1 <= i <= |names| ==> f[i] == names[i - 1];
    }
  }

  lemma FieldsInjective(j: Key, k: Key)
    requires Fields(j) == Fields(k)
    ensures j == k
  {
    var f, g := Fields(j), Fields(k);
    assert |f| == |g| && f[1] == g[1] && f[2] == g[2] && f[3] == g[3] && f[4] == g[4] && f[5] == g[5] && f[6] == g[6];
    assert f[7] == g[7] && (|f| == 11 ==> f[8] == g[8] && f[9] == g[9]);
    Text.DecimalInjective(j.job, k.job);
  }

  /** Two artifacts share an object key only when they are the same artifact: reports and
      certificates are kept apart, and so are all jobs, audits and versions. */
  lemma ObjectKeysDistinct(j: Key, k: Key)
    requires SlashFree(j) && SlashFree(k)
    ensures ObjectKey(j) == ObjectKey(k) <==> j == k
  {
    if ObjectKey(j) == ObjectKey(k) {
      FieldsFree(j);
      FieldsFree(k);
      Text.JoinInjective(Fields(j), Fields(k), '/');
      FieldsInjective(j, k);
    }
  }
}
