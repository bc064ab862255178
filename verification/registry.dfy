/**
 * How the six plugins are registered with the scanner: each carries a test
 * id and the kind of syntax node it checks. Together with the call blacklist
 * table these ids make up the rule ids a report can carry.
 */
module Registry {
  import opened Seqs
  import BlacklistCalls

  /** The kinds of syntax node a plugin can ask to check. */
  datatype NodeKind = Call | Str

  /** The six plugins of this model. */
  datatype Plugin =
    | SocketSendall
    | HttpClientHttpConnection
    | SocketSocketSendall
    | UrllibUrlretrieve
    | OsWrite
    | StringDecode

  /** A plugin's registration: its test id and the node kind it checks. */
  datatype Registration = Registration(testId: string, checks: NodeKind)

  /** The plugins in a fixed order. */
  const Plugins: seq<Plugin> :=
    [SocketSendall, HttpClientHttpConnection, SocketSocketSendall, UrllibUrlretrieve, OsWrite, StringDecode]

  /**
   * The test id and checked node kind each plugin is registered with. Only
   * B502 asks for string-literal nodes; the five suffix rules ask for calls.
   */
  function Register(p: Plugin): (r: Registration)
    ensures r.checks == Str <==> p == StringDecode
  {
    match p
    case SocketSendall => Registration("B205", Call)
    case HttpClientHttpConnection => Registration("B324", Call)
    case SocketSocketSendall => Registration("B319", Call)
    case UrllibUrlretrieve => Registration("B327", Call)
    case OsWrite => Registration("B336", Call)
    case StringDecode => Registration("B502", Str)
  }

  /** Every rule id known to the scanner here: the table's ids, then the plugins'. */
  function AllRuleIds(): (r: seq<string>)
    ensures |r| == |BlacklistCalls.CallEntries| + |Plugins|
  {
    BlacklistCalls.Ids(BlacklistCalls.GenBlacklist()["Call"]) + PluginIds()
  }

  /** The plugins' ids, in plugin order: each plugin's registered id, and nothing else. */
  function PluginIds(): (r: seq<string>)
    ensures |r| == |Plugins|
    ensures forall i :: 0 <= i < |Plugins| ==> r[i] == Register(Plugins[i]).testId
    ensures r == ["B205", "B324", "B319", "B327", "B336", "B502"]
  {
    seq(|Plugins|, i requires 0 <= i < |Plugins| => Register(Plugins[i]).testId)
  }

  /** The whole id list is duplicate-free, so no table id is also a plugin id. */
  lemma AllRuleIdsDistinct()
    ensures forall i, j :: 0 <= i < j < |AllRuleIds()| ==> AllRuleIds()[i] != AllRuleIds()[j]
  {
    var es := BlacklistCalls.GenBlacklist()["Call"];
    var table := BlacklistCalls.Ids(es);
    var plugins := PluginIds();
    var all := AllRuleIds();
    BlacklistCalls.CallIdsNoDuplicates();
    NoDuplicatesIffPairwiseDistinct(table);
    assert plugins == ["B205", "B324", "B319", "B327", "B336", "B502"];
    assert NoDuplicates(plugins);
    NoDuplicatesIffPairwiseDistinct(plugins);
    forall i, j | 0 <= i < j < |all| ensures all[i] != all[j] {
      if j < |table| {
        assert all[i] == table[i] && all[j] == table[j];
      } else if |table| <= i {
        assert all[i] == plugins[i - |table|] && all[j] == plugins[j - |table|];
      } else {
        TableIdsAreNotPluginIds(es[i]);
        assert all[i] == es[i].id && all[j] == plugins[j - |table|];
      }
    }
  }

  /** No blacklist entry shares its id with any plugin. */
  lemma TableIdsAreNotPluginIds(e: BlacklistCalls.BlacklistEntry)
    requires e in BlacklistCalls.GenBlacklist()["Call"]
    ensures e.id !in PluginIds()
  {
  }
}
