/**
 * The static call blacklist: the data a blacklist plugin hands to the
 * scanner's built-in blacklist test. Each entry keeps exactly the four
 * arguments `gen_blacklist` passes to `build_conf_dict`: a name, a rule id,
 * the qualified names to match, and a message.
 */
module BlacklistCalls {
  import opened Seqs

  /** One blacklist entry, as the four arguments given to `build_conf_dict`. */
  datatype BlacklistEntry = BlacklistEntry(name: string, id: string, qualnames: seq<string>, message: string)

  /** The `'Call'` list, in the order `gen_blacklist` appends the entries. */
  const CallEntries: seq<BlacklistEntry> := [
    BlacklistEntry("base64_b64decode", "B300", ["base64.b64decode"],
      "b64decode can be used for decoding malicious payload"),
    BlacklistEntry("base64_b64encode", "B301", ["base64.b64encode"],
      "b64decode can be used for encoding malicious payload"),
    BlacklistEntry("socket_gethostname", "B302", ["socket.gethostname"],
      "gethostname can be used to get the hostname of the machine"),
    BlacklistEntry("socket_connect", "B303", ["socket.socket.connect"],
      "Connect to a remote socket at address."),
    BlacklistEntry("pwd_getpwuid", "B330", ["pwd.getpwuid"],
      "Return the password database entry"),
    BlacklistEntry("socket_socket", "B331", ["socket.socket"],
      "Create a new socket using the given address family"),
    BlacklistEntry("os_getuid", "B332", ["os.getuid"],
      "get the login name of the current real user id."),
    BlacklistEntry("zlib_decompress", "B333", ["zlib.decompress"],
      "Decompresses the bytes in data"),
    BlacklistEntry("urllib_request", "B334", ["urllib.request"],
      "open url")
  ]

  /** The blacklist data: one key, `'Call'`, holding the nine entries in order. */
  function GenBlacklist(): (r: map<string, seq<BlacklistEntry>>)
    ensures r.Keys == {"Call"}
    ensures Ids(r["Call"]) == ["B300", "B301", "B302", "B303", "B330", "B331", "B332", "B333", "B334"]
  {
    map["Call" := CallEntries]
  }

  /** The rule ids of a list of entries, in order. */
  function Ids(es: seq<BlacklistEntry>): (r: seq<string>)
    ensures |r| == |es|
    ensures forall i :: 0 <= i < |es| ==> r[i] == es[i].id
  {
    seq(|es|, i requires 0 <= i < |es| => es[i].id)
  }

  /** The entry names of a list of entries, in order. */
  function Names(es: seq<BlacklistEntry>): (r: seq<string>)
    ensures |r| == |es|
    ensures forall i :: 0 <= i < |es| ==> r[i] == es[i].name
  {
    seq(|es|, i requires 0 <= i < |es| => es[i].name)
  }

  /** The qualified-name lists of a list of entries, in order. */
  function QualnameLists(es: seq<BlacklistEntry>): (r: seq<seq<string>>)
    ensures |r| == |es|
    ensures forall i :: 0 <= i < |es| ==> r[i] == es[i].qualnames
  {
    seq(|es|, i requires 0 <= i < |es| => es[i].qualnames)
  }

  /** The table's ids, evaluated. */
  lemma CallIdsNoDuplicates()
    ensures NoDuplicates(Ids(CallEntries))
  {
    var listed := [
      "B300", "B301", "B302", "B303",
      "B330", "B331", "B332", "B333", "B334"];
    assert NoDuplicates(listed);
    assert Ids(CallEntries) == listed;
  }

  /** The table's names, evaluated. */
  lemma CallNamesNoDuplicates()
    ensures NoDuplicates(Names(CallEntries))
  {
    var listed := [
      "base64_b64decode", "base64_b64encode", "socket_gethostname", "socket_connect",
      "pwd_getpwuid", "socket_socket", "os_getuid", "zlib_decompress", "urllib_request"];
    assert NoDuplicates(listed);
    assert Names(CallEntries) == listed;
  }

  /** The table's qualified-name lists, evaluated. */
  lemma CallQualnameListsNoDuplicates()
    ensures NoDuplicates(QualnameLists(CallEntries))
  {
    var listed := [
      ["base64.b64decode"], ["base64.b64encode"], ["socket.gethostname"], ["socket.socket.connect"],
      ["pwd.getpwuid"], ["socket.socket"], ["os.getuid"], ["zlib.decompress"], ["urllib.request"]];
    assert NoDuplicates(listed);
    assert QualnameLists(CallEntries) == listed;
  }

  /** Rule ids in the table are pairwise distinct. */
  lemma CallIdsDistinct()
    ensures forall i, j :: 0 <= i < j < |GenBlacklist()["Call"]| ==>
      GenBlacklist()["Call"][i].id != GenBlacklist()["Call"][j].id
  {
    var es := GenBlacklist()["Call"];
    CallIdsNoDuplicates();
    NoDuplicatesIffPairwiseDistinct(Ids(es));
  }

  /** Entry names in the table are pairwise distinct. */
  lemma CallNamesDistinct()
    ensures forall i, j :: 0 <= i < j < |GenBlacklist()["Call"]| ==>
      GenBlacklist()["Call"][i].name != GenBlacklist()["Call"][j].name
  {
    var es := GenBlacklist()["Call"];
    CallNamesNoDuplicates();
    NoDuplicatesIffPairwiseDistinct(Names(es));
  }

  /** Every entry lists exactly one qualified name, and it is not empty. */
  lemma CallQualnamesSingleton()
    ensures forall i :: 0 <= i < |GenBlacklist()["Call"]| ==>
      |GenBlacklist()["Call"][i].qualnames| == 1 && GenBlacklist()["Call"][i].qualnames[0] != ""
  {
  }

  /** No qualified name is claimed by two entries. */
  lemma CallQualnameInOneEntry()
    ensures forall i, j, q ::
      (0 <= i < |GenBlacklist()["Call"]| && 0 <= j < |GenBlacklist()["Call"]| &&
       q in GenBlacklist()["Call"][i].qualnames && q in GenBlacklist()["Call"][j].qualnames) ==> i == j
  {
    var es := GenBlacklist()["Call"];
    var lists := QualnameLists(es);
    CallQualnameListsNoDuplicates();
    NoDuplicatesIffPairwiseDistinct(lists);
    CallQualnamesSingleton();
    forall i, j, q | 0 <= i < |es| && 0 <= j < |es| && q in es[i].qualnames && q in es[j].qualnames
      ensures i == j
    {
      assert lists[i] == [q] == lists[j];
    }
  }

  /** `socket.socket` (B331) and `socket.socket.connect` (B303) are separate entries. */
  lemma SocketEntriesSeparate()
    ensures GenBlacklist()["Call"][3].id == "B303" && GenBlacklist()["Call"][3].qualnames == ["socket.socket.connect"]
    ensures GenBlacklist()["Call"][5].id == "B331" && GenBlacklist()["Call"][5].qualnames == ["socket.socket"]
  {
  }

  /** B301 keeps its message verbatim, "b64decode" included. */
  lemma B301MessageVerbatim()
    ensures GenBlacklist()["Call"][1] == BlacklistEntry("base64_b64encode", "B301", ["base64.b64encode"],
      "b64decode can be used for encoding malicious payload")
  {
  }
}
