/** The read-only audit of a data root, and what its healthy verdict implies. */
module Doctor {
  import opened Options
  import opened Names
  import opened Files
  import Residue
  import Versions

  // ---- what the audit can see ----

  datatype Entry = Entry(name: string, path: Path, tag: string, sha: Digest, anchor: Option<Digest>)

  /** What an active path leads to; `linked` when it is a symbolic link. */
  datatype Live = NoFile | OddFile | LiveFile(data: Content, executable: bool, special: bool, linked: bool)

  datatype Item = Artifact(file: string, data: Content, executable: bool) | OddItem(file: string)

  datatype Child = Version(items: seq<Item>) | OddChild

  datatype Tool = ToolDir(children: map<string, Child>) | OddTool

  datatype StoreNode = NoStore | OddStore | Store(tools: map<string, Tool>)

  datatype Transactions = NoTransactions | OddTransactions | TransactionDir(entries: Residue.Entries)

  datatype ManifestNode = NoManifest | OddManifest | Undecodable | Decoded(entries: seq<Entry>)

  datatype Root = Root(manifest: ManifestNode, transactions: Transactions, store: StoreNode, live: map<Path, Live>,
                       manifestTemps: bool, liveTemps: bool)

  // ---- the report ----

  datatype Severity = Error | Warning | Info

  datatype Finding = Finding(severity: Severity, scope: string, subject: string)

  datatype Status = Healthy | Degraded | Broken | Incomplete

  class Report {
    var findings: seq<Finding>
    var complete: bool

    constructor ()
      ensures findings == [] && complete
    {
      findings, complete := [], true;
    }

    /** Nothing wrong so far: nothing but information when warnings count, and no error otherwise. */
    predicate Quiet(strict: bool)
      reads this
    {
      complete && forall f :: f in findings ==> f.severity.Info? || (f.severity.Warning? && !strict)
    }

    method Add(severity: Severity, scope: string, subject: string)
      modifies this`findings
      ensures findings == old(findings) + [Finding(severity, scope, subject)]
      ensures Quiet(true) <==> old(Quiet(true)) && severity.Info?
      ensures Quiet(false) <==> old(Quiet(false)) && !severity.Error?
    {
      findings := findings + [Finding(severity, scope, subject)];
    }

    predicate Reports(severity: Severity)
      reads this
    {
      exists f :: f in findings && f.severity == severity
    }

    /** Count the findings and settle the status: the worst of them decides. */
    method Finalize() returns (status: Status)
      ensures status == Healthy <==> Quiet(true)
      ensures status in {Healthy, Degraded} <==> Quiet(false)
      ensures status == Incomplete <==> !complete
      ensures status == Broken <==> complete && Reports(Error)
      ensures status == Degraded <==> complete && !Reports(Error) && Reports(Warning)
    {
      var errors, warnings := 0, 0;
      for i := 0 to |findings|
        invariant 0 <= errors && 0 <= warnings
        invariant errors > 0 <==> exists j :: 0 <= j < i && findings[j].severity.Error?
        invariant warnings > 0 <==> exists j :: 0 <= j < i && findings[j].severity.Warning?
      {
        match findings[i].severity {
          case Error => errors := errors + 1;
          case Warning => warnings := warnings + 1;
          case Info =>
        }
      }
      assert forall f :: f in findings ==> exists j :: 0 <= j < |findings| && findings[j] == f;
      status := if !complete then Incomplete else if errors > 0 then Broken else if warnings > 0 then Degraded else Healthy;
    }
  }

  // ---- what must hold: `strict` when a warning counts as well ----

  const TMP := ".tmp"

  predicate ValidName(name: string)
  {
    Versions.ValidVersion(name) && !EqualFold(name, TMP)
  }

  predicate EntryGood(e: Entry, strict: bool)
  {
    && ValidName(e.name) && (e.tag == ORIGINAL || Versions.ValidVersion(e.tag))
    && e.path != [] && (strict ==> e.path[|e.path| - 1] == e.name)
  }

  predicate EntriesGood(entries: seq<Entry>, strict: bool)
  {
    && (forall e :: e in entries ==> EntryGood(e, strict))
    && (forall i, j :: 0 <= i < j < |entries| ==>
          entries[i].name != entries[j].name && entries[i].path != entries[j].path)
  }

  /** What the audit takes the manifest to list. */
  function EntriesOf(manifest: ManifestNode): seq<Entry>
  {
    if manifest.Decoded? then manifest.entries else []
  }

  predicate ManifestGood(manifest: ManifestNode, strict: bool)
  {
    if strict || !manifest.NoManifest? then manifest.Decoded? && EntriesGood(manifest.entries, strict) else true
  }

  predicate LiveGood(root: Root, e: Entry, strict: bool)
  {
    && e.path in root.live && root.live[e.path].LiveFile?
    && root.live[e.path].executable && Sha(root.live[e.path].data) == e.sha
    && (strict ==> !root.live[e.path].special)
  }

  /** Exactly one executable file, named like the tool. */
  predicate ArtifactGood(tool: string, child: Child)
  {
    && child.Version? && |child.items| == 1 && child.items[0].Artifact?
    && child.items[0].file == tool && child.items[0].executable
  }

  function ArtifactSha(child: Child): Digest
    requires child.Version? && |child.items| == 1 && child.items[0].Artifact?
  {
    Sha(child.items[0].data)
  }

  predicate ChildGood(tool: string, name: string, child: Child, anchor: Option<Digest>)
  {
    && (if EqualFold(name, ORIGINAL) then name == ORIGINAL else Versions.ValidVersion(name))
    && ArtifactGood(tool, child)
    && (name == ORIGINAL && anchor.Some? ==> ArtifactSha(child) == anchor.value)
  }

  predicate ToolGood(name: string, tool: Tool, anchor: Option<Digest>)
  {
    && tool.ToolDir? && ORIGINAL in tool.children
    && forall c :: c in tool.children ==> ChildGood(name, c, tool.children[c], anchor)
  }

  /** The first entry with this name. */
  function ByName(entries: seq<Entry>, name: string): Option<Entry>
  {
    if entries == [] then None
    else if entries[0].name == name then Some(entries[0])
    else ByName(entries[1..], name)
  }

  function AnchorOf(entries: seq<Entry>, name: string): Option<Digest>
  {
    var entry := ByName(entries, name);
    if entry.Some? then entry.value.anchor else None
  }

  function TagOf(entries: seq<Entry>, name: string): string
  {
    var entry := ByName(entries, name);
    if entry.Some? then entry.value.tag else ""
  }

  /** Only the letter case tells this name from one in the manifest. */
  predicate Alias(entries: seq<Entry>, name: string)
  {
    exists e :: e in entries && EqualFold(e.name, name)
  }

  predicate StoreChildGood(entries: seq<Entry>, name: string, tool: Tool, strict: bool)
  {
    if EqualFold(name, TMP) then name == TMP && tool.ToolDir? && (strict ==> tool.children == map[])
    else tool.ToolDir? && ValidName(name) && (ByName(entries, name).None? ==> !strict && !Alias(entries, name))
         && ToolGood(name, tool, AnchorOf(entries, name))
  }

  predicate StoreGood(store: StoreNode, entries: seq<Entry>, strict: bool)
  {
    match store
    case NoStore => entries == []
    case OddStore => false
    case Store(tools) =>
      && (forall name :: name in tools ==> StoreChildGood(entries, name, tools[name], strict))
      && (forall e :: e in entries ==> e.name in tools)
  }

  /** The artifact of the active tag, or the original when there is none, is what is recorded. */
  predicate ActiveGood(children: map<string, Child>, e: Entry)
  {
    var tag := if e.tag in children then e.tag else ORIGINAL;
    tag in children && ArtifactGood(e.name, children[tag]) && ArtifactSha(children[tag]) == e.sha
  }

  predicate AllActiveGood(store: StoreNode, entries: seq<Entry>)
  {
    forall e :: e in entries ==>
      store.Store? && e.name in store.tools && store.tools[e.name].ToolDir? && ActiveGood(store.tools[e.name].children, e)
  }

  /** An entry that recovery leaves or clears: one in quarantine, or a journal that is not pending. */
  predicate Harmless(name: string, node: Residue.Node)
  {
    var bucket := Residue.BucketOf(name, node);
    bucket.Quarantined? || ((bucket.Building? || bucket.Completed?) && node.Folder?)
  }

  predicate TransactionsGood(transactions: Transactions, strict: bool)
  {
    match transactions
    case NoTransactions => true
    case OddTransactions => false
    case TransactionDir(entries) => forall name :: name in entries ==> !strict && Harmless(name, entries[name])
  }

  predicate AllGood(root: Root, deep: bool, strict: bool)
  {
    var entries := EntriesOf(root.manifest);
    && TransactionsGood(root.transactions, strict) && ManifestGood(root.manifest, strict)
    && (forall e :: e in entries ==> LiveGood(root, e, strict))
    && StoreGood(root.store, entries, strict) && AllActiveGood(root.store, entries)
    && (strict ==> !root.manifestTemps && (deep ==> !root.liveTemps))
  }

  /** A directory with one executable of this name and nothing else. */
  ghost predicate Holds(child: Child, file: string)
  {
    child.Version? && exists data :: child.items == [Artifact(file, data, true)]
  }

  /** Without an error no two entries share a name or a path, and no transaction is pending. */
  lemma NothingContested(root: Root, deep: bool, strict: bool)
    requires AllGood(root, deep, strict) && root.manifest.Decoded?
    ensures forall i, j :: 0 <= i < j < |root.manifest.entries| ==>
              root.manifest.entries[i].name != root.manifest.entries[j].name
              && root.manifest.entries[i].path != root.manifest.entries[j].path
    ensures root.transactions.TransactionDir? ==>
              forall t :: t in root.transactions.entries ==> !(Residue.PENDING <= t)
  {
    if root.transactions.TransactionDir? {
      forall t | t in root.transactions.entries ensures !(Residue.PENDING <= t) {
        assert Harmless(t, root.transactions.entries[t]);
        assert Residue.BUILDING <= t || Residue.QUARANTINED <= t || Residue.COMPLETED <= t;
        assert t != "" && t[0] != Residue.PENDING[0];
      }
    }
  }

  /** The invariant that the other modules keep, in the terms of one entry, whenever there is no error:
      the live file is what is recorded, the original backup is the adopted file when that is on
      record, and the active version can be found in the store. */
  lemma UsableEntry(root: Root, deep: bool, strict: bool, e: Entry)
    requires AllGood(root, deep, strict) && root.manifest.Decoded? && e in root.manifest.entries
    ensures e.path in root.live && root.live[e.path].LiveFile? && root.live[e.path].executable
    ensures Sha(root.live[e.path].data) == e.sha && root.store.Store? && e.name in root.store.tools
    ensures var tool := root.store.tools[e.name];
            && tool.ToolDir? && ORIGINAL in tool.children && Holds(tool.children[ORIGINAL], e.name)
            && (e.anchor.Some? ==> Sha(tool.children[ORIGINAL].items[0].data) == e.anchor.value)
            && var active := if e.tag in tool.children then tool.children[e.tag] else tool.children[ORIGINAL];
               Holds(active, e.name) && Sha(active.items[0].data) == Sha(root.live[e.path].data)
  {
    var entries := root.manifest.entries;
    assert LiveGood(root, e, strict) && EntryGood(e, strict);
    assert StoreChildGood(entries, e.name, root.store.tools[e.name], strict);
    var i :| 0 <= i < |entries| && entries[i] == e;
    ByNameFinds(entries, i);
    assert ChildGood(e.name, ORIGINAL, root.store.tools[e.name].children[ORIGINAL], e.anchor);
  }

  /** Two views of one live file that differ at most in the special mode bits and in being a link. */
  predicate SameProgram(a: Live, b: Live)
  {
    a.LiveFile? && b.LiveFile? && a.data == b.data && a.executable == b.executable
  }

  /** None of this breaks a data root that is healthy without it: temporary names, journals that are
      not pending, entries in quarantine, special mode bits, and one more tool that nobody adopted. */
  lemma BlemishesDoNotBreak(root: Root, other: Root, deep: bool, name: string, children: map<string, Child>)
    requires AllGood(root, deep, true) && root.store.Store? && other.manifest == root.manifest
    requires other.transactions.TransactionDir?
    requires forall t :: t in other.transactions.entries ==>
               var bucket := Residue.BucketOf(t, other.transactions.entries[t]);
               bucket.Quarantined? || (other.transactions.entries[t].Folder? && !bucket.Pending? && !bucket.Unknown?)
    requires forall p :: p in root.live && root.live[p].LiveFile? ==>
               p in other.live && SameProgram(root.live[p], other.live[p])
    requires ValidName(name) && forall e :: e in root.manifest.entries ==> !EqualFold(e.name, name)
    requires ToolGood(name, ToolDir(children), None)
    requires other.store == Store(root.store.tools[name := ToolDir(children)])
    ensures AllGood(other, deep, false)
  {
    var entries := root.manifest.entries;
    forall e | e in entries ensures LiveGood(other, e, false) && EntryGood(e, false) && e.name != name {
      assert LiveGood(root, e, true) && EntryGood(e, true);
    }
    forall n | n in other.store.tools ensures StoreChildGood(entries, n, other.store.tools[n], false) {
      if n == name {
        NobodyByName(entries, name);
      } else {
        assert StoreChildGood(entries, n, root.store.tools[n], true);
      }
    }
  }

  lemma {:induction false} NobodyByName(entries: seq<Entry>, name: string)
    requires forall e :: e in entries ==> e.name != name
    ensures ByName(entries, name) == None
  {
    if entries != [] {
      NobodyByName(entries[1..], name);
    }
  }

  lemma {:induction false} ByNameFinds(entries: seq<Entry>, i: nat)
    requires i < |entries| && forall j, k :: 0 <= j < k < |entries| ==> entries[j].name != entries[k].name
    ensures ByName(entries, entries[i].name) == Some(entries[i])
  {
    if i > 0 {
      assert entries[0].name != entries[i].name;
      ByNameFinds(entries[1..], i - 1);
    }
  }

  // ---- the scans ----

  method ScanTransactions(report: Report, transactions: Transactions)
    modifies report`findings
    ensures forall strict :: report.Quiet(strict) <==> old(report.Quiet(strict)) && TransactionsGood(transactions, strict)
  {
    match transactions {
      case NoTransactions =>
      case OddTransactions =>
        report.Add(Error, "transaction", "");
      case TransactionDir(entries) =>
        var rest, pending := entries.Keys, 0;
        while rest != {}
          invariant rest <= entries.Keys
          invariant forall strict :: report.Quiet(strict) <==>
                      (old(report.Quiet(strict))
                       && forall name :: name in entries && name !in rest ==> !strict && Harmless(name, entries[name]))
          invariant pending > 0 ==> !report.Quiet(false)
          decreases |rest|
        {
          var name :| name in rest;
          var severity := Error;
          match Residue.BucketOf(name, entries[name]) {
            case Quarantined => severity := Warning;
            case Building => severity := if entries[name].Folder? then Warning else Error;
            case Completed => severity := if entries[name].Folder? then Warning else Error;
            case Pending => pending := pending + 1;
            case Unknown =>
          }
          report.Add(severity, "transaction", name);
          rest := rest - {name};
        }
        if pending > 1 {
          report.Add(Error, "transaction", "");
        }
    }
  }

  predicate Counted(e: Entry, names: multiset<string>, paths: multiset<Path>, strict: bool)
  {
    EntryGood(e, strict) && names[e.name] <= 1 && paths[e.path] <= 1
  }

  method ValidateEntry(report: Report, e: Entry, names: multiset<string>, paths: multiset<Path>)
    modifies report`findings
    ensures forall strict :: report.Quiet(strict) <==> old(report.Quiet(strict)) && Counted(e, names, paths, strict)
  {
    if !ValidName(e.name) {
      report.Add(Error, "entry", e.name);
    }
    if names[e.name] > 1 {
      report.Add(Error, "entry", e.name);
    }
    if e.path == [] {
      report.Add(Error, "entry", e.name);
    } else {
      if paths[e.path] > 1 {
        report.Add(Error, "entry", e.name);
      }
      if e.path[|e.path| - 1] != e.name {
        report.Add(Warning, "entry", e.name);
      }
    }
    if e.tag != ORIGINAL && !Versions.ValidVersion(e.tag) {
      report.Add(Error, "entry", e.name);
    }
  }

  /** How often each name and each path occurs. */
  method CountEntries(entries: seq<Entry>) returns (names: multiset<string>, paths: multiset<Path>)
    ensures names == multiset(NamesOf(entries)) && paths == multiset(PathsOf(entries))
  {
    names, paths := multiset{}, multiset{};
    for i := 0 to |entries|
      invariant names == multiset(NamesOf(entries[..i])) && paths == multiset(PathsOf(entries[..i]))
    {
      assert NamesOf(entries[..i + 1]) == NamesOf(entries[..i]) + [entries[i].name];
      assert PathsOf(entries[..i + 1]) == PathsOf(entries[..i]) + [entries[i].path];
      names, paths := names + multiset{entries[i].name}, paths + multiset{entries[i].path};
    }
    assert entries[..|entries|] == entries;
  }

  /** Count names and paths, then check entry by entry. */
  method ValidateEntries(report: Report, entries: seq<Entry>)
    modifies report`findings
    ensures forall strict :: report.Quiet(strict) <==> old(report.Quiet(strict)) && EntriesGood(entries, strict)
  {
    var names, paths := CountEntries(entries);
    for i := 0 to |entries|
      invariant forall strict :: report.Quiet(strict) <==>
                  (old(report.Quiet(strict)) && forall k :: 0 <= k < i ==> Counted(entries[k], names, paths, strict))
    {
      ValidateEntry(report, entries[i], names, paths);
    }
    CountedEntries(entries, names, paths, true);
    CountedEntries(entries, names, paths, false);
  }

  lemma CountedEntries(entries: seq<Entry>, names: multiset<string>, paths: multiset<Path>, strict: bool)
    requires names == multiset(NamesOf(entries)) && paths == multiset(PathsOf(entries))
    ensures EntriesGood(entries, strict) <==> forall k :: 0 <= k < |entries| ==> Counted(entries[k], names, paths, strict)
  {
    CountsAreOne(NamesOf(entries));
    CountsAreOne(PathsOf(entries));
    DistinctEntries(entries, strict);
    if forall k :: 0 <= k < |entries| ==> Counted(entries[k], names, paths, strict) {
      forall k | 0 <= k < |entries|
        ensures names[NamesOf(entries)[k]] <= 1 && paths[PathsOf(entries)[k]] <= 1
      {
        assert Counted(entries[k], names, paths, strict);
      }
    }
    if EntriesGood(entries, strict) {
      forall k | 0 <= k < |entries| ensures Counted(entries[k], names, paths, strict) {
        assert names[NamesOf(entries)[k]] <= 1 && paths[PathsOf(entries)[k]] <= 1;
      }
    }
  }

  function NamesOf(entries: seq<Entry>): (names: seq<string>)
    ensures |names| == |entries| && forall i :: 0 <= i < |entries| ==> names[i] == entries[i].name
  {
    seq(|entries|, i requires 0 <= i < |entries| => entries[i].name)
  }

  function PathsOf(entries: seq<Entry>): (paths: seq<Path>)
    ensures |paths| == |entries| && forall i :: 0 <= i < |entries| ==> paths[i] == entries[i].path
  {
    seq(|entries|, i requires 0 <= i < |entries| => entries[i].path)
  }

  predicate Distinct<T(==)>(s: seq<T>)
  {
    forall i, j :: 0 <= i < j < |s| ==> s[i] != s[j]
  }

  predicate Single<T(==)>(s: seq<T>)
  {
    forall i :: 0 <= i < |s| ==> multiset(s)[s[i]] <= 1
  }

  /** Nothing occurs twice exactly when no count exceeds one. */
  lemma {:induction false} CountsAreOne<T>(s: seq<T>)
    ensures Single(s) <==> Distinct(s)
  {
    if s != [] {
      var front, last := s[..|s| - 1], s[|s| - 1];
      assert s == front + [last];
      CountsAreOne(front);
      assert forall x :: multiset(s)[x] == multiset(front)[x] + if x == last then 1 else 0;
      if Single(s) {
        forall i | 0 <= i < |front| ensures multiset(front)[front[i]] <= 1 && front[i] != last {
          assert multiset(s)[s[i]] <= 1 && front[i] in multiset(front);
        }
        assert Single(front);
        forall i, j | 0 <= i < j < |s| ensures s[i] != s[j] {
          if j < |front| {
            assert front[i] != front[j];
          } else {
            assert front[i] != last;
          }
        }
      }
      if Distinct(s) {
        assert forall i, j :: 0 <= i < j < |front| ==> front[i] == s[i] && front[j] == s[j] && s[i] != s[j];
        forall i | 0 <= i < |s| ensures multiset(s)[s[i]] <= 1 {
          assert forall k :: 0 <= k < |front| ==> front[k] == s[k] && s[k] != last;
          if i < |front| {
            assert multiset(front)[front[i]] <= 1;
          } else {
            assert last !in multiset(front);
          }
        }
      }
    }
  }

  lemma DistinctEntries(entries: seq<Entry>, strict: bool)
    ensures EntriesGood(entries, strict)
            <==> (forall k :: 0 <= k < |entries| ==> EntryGood(entries[k], strict))
                 && Distinct(NamesOf(entries)) && Distinct(PathsOf(entries))
  {
    var names, paths := NamesOf(entries), PathsOf(entries);
    if EntriesGood(entries, strict) {
      forall i, j | 0 <= i < j < |entries| ensures names[i] != names[j] && paths[i] != paths[j] {
        assert entries[i].name != entries[j].name && entries[i].path != entries[j].path;
      }
    }
    if Distinct(names) && Distinct(paths) {
      forall i, j | 0 <= i < j < |entries| ensures entries[i].name != entries[j].name && entries[i].path != entries[j].path {
        assert names[i] != names[j] && paths[i] != paths[j];
      }
    }
  }

  method ScanManifest(report: Report, manifest: ManifestNode) returns (entries: seq<Entry>)
    modifies report`findings
    ensures forall strict :: report.Quiet(strict) <==> old(report.Quiet(strict)) && ManifestGood(manifest, strict)
    ensures entries == EntriesOf(manifest)
  {
    entries := [];
    match manifest {
      case NoManifest => report.Add(Warning, "manifest", "");
      case OddManifest => report.Add(Error, "manifest", "");
      case Undecodable => report.Add(Error, "manifest", "");
      case Decoded(found) =>
        entries := found;
        ValidateEntries(report, entries);
    }
  }

  /** The digest of the live file, if the audit could take it. */
  function LiveSha(root: Root, e: Entry): Option<Digest>
  {
    if e.path in root.live && root.live[e.path].LiveFile? then Some(Sha(root.live[e.path].data)) else None
  }

  method ScanLive(report: Report, root: Root, entries: seq<Entry>) returns (live: seq<Option<Digest>>)
    modifies report`findings
    ensures forall strict :: report.Quiet(strict) <==>
              (old(report.Quiet(strict)) && forall e :: e in entries ==> LiveGood(root, e, strict))
    ensures |live| == |entries| && forall i :: 0 <= i < |entries| ==> live[i] == LiveSha(root, entries[i])
  {
    live := [];
    for i := 0 to |entries|
      invariant |live| == i && forall k :: 0 <= k < i ==> live[k] == LiveSha(root, entries[k])
      invariant forall strict :: report.Quiet(strict) <==>
                  (old(report.Quiet(strict)) && forall k :: 0 <= k < i ==> LiveGood(root, entries[k], strict))
    {
      var digest := ScanLiveEntry(report, root, entries[i]);
      live := live + [digest];
    }
  }

  method ScanLiveEntry(report: Report, root: Root, e: Entry) returns (digest: Option<Digest>)
    modifies report`findings
    ensures forall strict :: report.Quiet(strict) <==> old(report.Quiet(strict)) && LiveGood(root, e, strict)
    ensures digest == LiveSha(root, e)
  {
    digest := None;
    var found := if e.path in root.live then root.live[e.path] else NoFile;
    if !found.LiveFile? {
      report.Add(Error, "live", e.name);
      return;
    }
    if found.linked {
      report.Add(Info, "live", e.name);
    }
    if !found.executable {
      report.Add(Error, "live", e.name);
    }
    if found.special {
      report.Add(Warning, "live", e.name);
    }
    digest := Some(Sha(found.data));
    if digest.value != e.sha {
      report.Add(Error, "live", e.name);
    }
  }

  predicate ArtifactAt(child: Child)
  {
    child.Version? && |child.items| == 1 && child.items[0].Artifact?
  }

  /** What the audit of one artifact directory leaves for the comparison. */
  datatype Audit = Audit(valid: bool, digest: Option<Digest>)

  datatype ToolAudit = ToolAudit(original: Audit, versions: map<string, Audit>)

  method ScanArtifact(report: Report, tool: string, child: Child, hash: bool) returns (audit: Audit)
    modifies report`findings
    ensures forall strict :: report.Quiet(strict) <==> old(report.Quiet(strict)) && ArtifactGood(tool, child)
    ensures audit.valid <==> ArtifactGood(tool, child)
    ensures ArtifactGood(tool, child) && hash ==> audit.digest == Some(ArtifactSha(child))
    ensures audit.digest.Some? ==> child.Version? && |child.items| == 1 && child.items[0].Artifact?
                                   && audit.digest == Some(ArtifactSha(child))
  {
    audit := Audit(false, None);
    if !child.Version? || |child.items| != 1 || !child.items[0].Artifact? {
      report.Add(Error, "store", tool);
      return;
    }
    var item := child.items[0];
    if item.file != tool {
      report.Add(Error, "store", tool);
    }
    if !item.executable {
      report.Add(Error, "store", tool);
    }
    audit := Audit(item.file == tool && item.executable, if hash then Some(Sha(item.data)) else None);
  }

  /** Audit one child of a tool directory. */
  method ScanChild(report: Report, deep: bool, tool: string, name: string, child: Child, currentTag: string,
                   anchor: Option<Digest>)
    returns (audit: Audit)
    modifies report`findings
    ensures forall strict :: report.Quiet(strict) <==> old(report.Quiet(strict)) && ChildGood(tool, name, child, anchor)
    ensures report.Quiet(false) && (name == ORIGINAL || name == currentTag || deep) ==>
              ArtifactAt(child) && audit == Audit(true, Some(ArtifactSha(child)))
    ensures report.Quiet(false) ==> audit.valid
  {
    audit := Audit(false, None);
    if EqualFold(name, ORIGINAL) {
      if name != ORIGINAL {
        report.Add(Error, "store", tool);
        return;
      }
      audit := ScanArtifact(report, tool, child, true);
      if anchor.Some? && audit.digest.Some? && audit.digest != anchor {
        report.Add(Error, "store", tool);
      }
      return;
    }
    if child.OddChild? || !Versions.ValidVersion(name) {
      report.Add(Error, "store", tool);
      return;
    }
    audit := ScanArtifact(report, tool, child, deep || name == currentTag);
  }

  /** The audit of a sound tool directory. */
  ghost predicate Audited(audit: ToolAudit, tool: Tool, currentTag: string)
    requires tool.ToolDir?
  {
    && (ORIGINAL in tool.children && ArtifactAt(tool.children[ORIGINAL]) ==>
          audit.original == Audit(true, Some(ArtifactSha(tool.children[ORIGINAL]))))
    && audit.versions.Keys == tool.children.Keys - {ORIGINAL}
    && (currentTag in audit.versions && ArtifactAt(tool.children[currentTag]) ==>
          audit.versions[currentTag] == Audit(true, Some(ArtifactSha(tool.children[currentTag]))))
  }

  /** How far the audit of a tool directory has come. */
  ghost predicate ToolAt(audit: ToolAudit, name: string, children: map<string, Child>, currentTag: string,
                         anchor: Option<Digest>, done: set<string>)
  {
    && done <= children.Keys && audit.versions.Keys == done - {ORIGINAL}
    && (forall c :: c in done ==> ChildGood(name, c, children[c], anchor))
    && (ORIGINAL in done ==> audit.original == Audit(true, Some(ArtifactSha(children[ORIGINAL]))))
    && (currentTag in audit.versions ==>
          audit.versions[currentTag] == Audit(true, Some(ArtifactSha(children[currentTag]))))
  }

  function WithChild(audit: ToolAudit, name: string, child: Audit): ToolAudit
  {
    if name == ORIGINAL then audit.(original := child) else audit.(versions := audit.versions[name := child])
  }

  lemma ToolStep(audit: ToolAudit, name: string, children: map<string, Child>, currentTag: string,
                 anchor: Option<Digest>, done: set<string>, c: string, child: Audit)
    requires ToolAt(audit, name, children, currentTag, anchor, done) && c in children && c !in done
    requires ChildGood(name, c, children[c], anchor)
    requires c == ORIGINAL || c == currentTag ==> child == Audit(true, Some(ArtifactSha(children[c])))
    ensures ToolAt(WithChild(audit, c, child), name, children, currentTag, anchor, done + {c})
  {}

  method ScanTool(report: Report, deep: bool, name: string, children: map<string, Child>, currentTag: string,
                  anchor: Option<Digest>)
    returns (audit: ToolAudit)
    modifies report`findings
    ensures forall strict :: report.Quiet(strict) <==> old(report.Quiet(strict)) && ToolGood(name, ToolDir(children), anchor)
    ensures report.Quiet(false) ==> Audited(audit, ToolDir(children), currentTag)
  {
    audit := ToolAudit(Audit(false, None), map[]);
    var rest := children.Keys;
    ghost var done := {};
    while rest != {}
      invariant rest <= children.Keys && done == children.Keys - rest
      invariant forall strict :: report.Quiet(strict) ==> old(report.Quiet(strict))
      invariant report.Quiet(false) ==> ToolAt(audit, name, children, currentTag, anchor, done)
      invariant forall strict :: old(report.Quiet(strict)) && !report.Quiet(strict) ==>
                                   !ToolGood(name, ToolDir(children), anchor)
      decreases |rest|
    {
      var c :| c in rest;
      var child := ScanChild(report, deep, name, c, children[c], currentTag, anchor);
      if report.Quiet(false) {
        ToolStep(audit, name, children, currentTag, anchor, done, c, child);
      }
      audit := WithChild(audit, c, child);
      rest, done := rest - {c}, done + {c};
    }
    assert done == children.Keys;
    if ORIGINAL !in children {
      report.Add(Error, "store", name);
    }
  }

  /** The tools audited so far, each a directory. */
  ghost predicate AllAudited(tools: map<string, Tool>, audits: map<string, ToolAudit>, entries: seq<Entry>,
                             done: set<string>)
  {
    && audits.Keys == done - {TMP} && done <= tools.Keys
    && (forall name :: name in audits ==>
          tools[name].ToolDir? && Audited(audits[name], tools[name], TagOf(entries, name)))
  }

  lemma AuditedStep(tools: map<string, Tool>, audits: map<string, ToolAudit>, entries: seq<Entry>, done: set<string>,
                    name: string, audit: ToolAudit)
    requires AllAudited(tools, audits, entries, done) && name in tools && name !in done && name != TMP
    requires tools[name].ToolDir? && Audited(audit, tools[name], TagOf(entries, name))
    ensures AllAudited(tools, audits[name := audit], entries, done + {name})
  {}

  /** One child of the store root: the staging directory, or a tool. */
  method ScanStoreChild(report: Report, deep: bool, name: string, tool: Tool, entries: seq<Entry>)
    returns (audit: ToolAudit)
    modifies report`findings
    ensures forall strict :: report.Quiet(strict) <==> old(report.Quiet(strict)) && StoreChildGood(entries, name, tool, strict)
    ensures report.Quiet(false) && name != TMP ==> tool.ToolDir? && Audited(audit, tool, TagOf(entries, name))
  {
    audit := ToolAudit(Audit(false, None), map[]);
    if EqualFold(name, TMP) {
      if name != TMP || !tool.ToolDir? {
        report.Add(Error, "store", name);
      } else if tool.children != map[] {
        report.Add(Warning, "store", name);
      }
      return;
    }
    if !tool.ToolDir? || !ValidName(name) {
      report.Add(Error, "store", name);
      return;
    }
    if ByName(entries, name).None? {
      report.Add(if Alias(entries, name) then Error else Warning, "store", name);
    }
    audit := ScanTool(report, deep, name, tool.children, TagOf(entries, name), AnchorOf(entries, name));
  }

  method ScanStore(report: Report, deep: bool, store: StoreNode, entries: seq<Entry>)
    returns (audits: map<string, ToolAudit>)
    modifies report`findings
    ensures forall strict :: report.Quiet(strict) <==> old(report.Quiet(strict)) && StoreGood(store, entries, strict)
    ensures report.Quiet(false) && store.Store? ==> AllAudited(store.tools, audits, entries, store.tools.Keys)
  {
    audits := map[];
    match store {
      case NoStore =>
        if |entries| > 0 {
          report.Add(Error, "store", "");
        }
      case OddStore =>
        report.Add(Error, "store", "");
      case Store(tools) =>
        audits := ScanTools(report, deep, tools, entries);
        ScanMissing(report, tools, entries);
    }
  }

  method ScanTools(report: Report, deep: bool, tools: map<string, Tool>, entries: seq<Entry>)
    returns (audits: map<string, ToolAudit>)
    modifies report`findings
    ensures forall strict :: report.Quiet(strict) <==>
              (old(report.Quiet(strict)) && forall name :: name in tools ==> StoreChildGood(entries, name, tools[name], strict))
    ensures report.Quiet(false) ==> AllAudited(tools, audits, entries, tools.Keys)
  {
    audits := map[];
    var rest := tools.Keys;
    ghost var done := {};
    while rest != {}
      invariant rest <= tools.Keys && done == tools.Keys - rest
      invariant forall strict :: report.Quiet(strict) <==>
                  (old(report.Quiet(strict))
                   && forall name :: name in done ==> StoreChildGood(entries, name, tools[name], strict))
      invariant report.Quiet(false) ==> AllAudited(tools, audits, entries, done)
      decreases |rest|
    {
      var name :| name in rest;
      var audit := ScanStoreChild(report, deep, name, tools[name], entries);
      if report.Quiet(false) && name != TMP {
        AuditedStep(tools, audits, entries, done, name, audit);
      }
      audits := if name != TMP then audits[name := audit] else audits;
      rest, done := rest - {name}, done + {name};
    }
    assert done == tools.Keys;
  }

  /** Every entry needs a directory of exactly its name. */
  method ScanMissing(report: Report, tools: map<string, Tool>, entries: seq<Entry>)
    modifies report`findings
    ensures forall strict :: report.Quiet(strict) <==> old(report.Quiet(strict)) && forall e :: e in entries ==> e.name in tools
  {
    for i := 0 to |entries|
      invariant forall strict :: report.Quiet(strict) <==>
                  (old(report.Quiet(strict)) && forall k :: 0 <= k < i ==> entries[k].name in tools)
    {
      if entries[i].name !in tools {
        report.Add(Error, "store", entries[i].name);
      }
    }
  }

  /** Compare the audit of the active artifact with the manifest and the live file. */
  method CompareActive(report: Report, e: Entry, live: Option<Digest>, artifact: Audit)
    modifies report`findings
    ensures forall strict :: report.Quiet(strict) <==>
              old(report.Quiet(strict))
              && (artifact.valid && artifact.digest.Some? ==>
                    artifact.digest.value == e.sha && (live.Some? ==> artifact.digest == live))
  {
    if !artifact.valid || artifact.digest.None? {
      return;
    }
    if artifact.digest.value != e.sha {
      report.Add(Error, "store", e.name);
    }
    if live.Some? && artifact.digest != live {
      report.Add(Error, "store", e.name);
    }
  }

  method CrossCheckEntry(report: Report, e: Entry, live: Option<Digest>, tool: ToolAudit)
    modifies report`findings
    ensures forall strict :: report.Quiet(strict) ==> old(report.Quiet(strict))
    ensures (live == Some(e.sha) && tool.original.valid && tool.original.digest.Some?
             && (e.tag in tool.versions ==> tool.versions[e.tag].valid && tool.versions[e.tag].digest.Some?)) ==>
              forall strict :: report.Quiet(strict) <==>
                (old(report.Quiet(strict))
                 && (if e.tag in tool.versions && e.tag != ORIGINAL then tool.versions[e.tag].digest
                     else tool.original.digest) == Some(e.sha))
  {
    if e.tag == ORIGINAL {
      CompareActive(report, e, live, tool.original);
    } else if e.tag in tool.versions {
      CompareActive(report, e, live, tool.versions[e.tag]);
    } else if live.Some? && tool.original.digest == live {
      report.Add(Info, "store", e.name);
    } else {
      report.Add(Error, "store", e.name);
    }
  }

  method CrossCheckAt(report: Report, ghost root: Root, entries: seq<Entry>, live: seq<Option<Digest>>,
                      audits: map<string, ToolAudit>, i: nat)
    requires i < |entries| == |live| && live[i] == LiveSha(root, entries[i])
    modifies report`findings
    ensures forall strict :: report.Quiet(strict) ==> old(report.Quiet(strict))
    ensures forall strict :: old(report.Quiet(strict)) && Inspected(root, entries, audits) ==>
              (report.Quiet(strict) <==> EntryActive(root.store, entries[i]))
  {
    if Inspected(root, entries, audits) {
      InspectedEntry(root, entries, audits, i);
    }
    var e := entries[i];
    if ValidName(e.name) && e.name in audits {
      CrossCheckEntry(report, e, live[i], audits[e.name]);
    }
  }

  method CrossCheck(report: Report, root: Root, entries: seq<Entry>, live: seq<Option<Digest>>,
                    audits: map<string, ToolAudit>)
    requires |live| == |entries| && forall i :: 0 <= i < |entries| ==> live[i] == LiveSha(root, entries[i])
    requires report.Quiet(false) ==> Inspected(root, entries, audits)
    modifies report`findings
    ensures forall strict :: report.Quiet(strict) <==> old(report.Quiet(strict)) && AllActiveGood(root.store, entries)
  {
    for i := 0 to |entries|
      invariant forall strict :: report.Quiet(strict) ==> old(report.Quiet(strict))
      invariant forall strict :: old(report.Quiet(strict)) ==>
                  (report.Quiet(strict) <==> forall k :: 0 <= k < i ==> EntryActive(root.store, entries[k]))
    {
      CrossCheckAt(report, root, entries, live, audits, i);
    }
    EveryEntryActive(root.store, entries);
  }

  lemma EveryEntryActive(store: StoreNode, entries: seq<Entry>)
    ensures AllActiveGood(store, entries) <==> forall k :: 0 <= k < |entries| ==> EntryActive(store, entries[k])
  {
    if AllActiveGood(store, entries) {
      forall k | 0 <= k < |entries| ensures EntryActive(store, entries[k]) {
        assert entries[k] in entries;
      }
    }
    if forall k :: 0 <= k < |entries| ==> EntryActive(store, entries[k]) {
      forall e | e in entries ensures EntryActive(store, e) {
        var k :| 0 <= k < |entries| && entries[k] == e;
      }
    }
  }

  predicate EntryActive(store: StoreNode, e: Entry)
  {
    store.Store? && e.name in store.tools && store.tools[e.name].ToolDir? && ActiveGood(store.tools[e.name].children, e)
  }

  /** What the scans before the cross-check have established. */
  ghost predicate Inspected(root: Root, entries: seq<Entry>, audits: map<string, ToolAudit>)
  {
    && EntriesGood(entries, false) && (forall e :: e in entries ==> LiveGood(root, e, false))
    && StoreGood(root.store, entries, false)
    && (root.store.Store? ==> AllAudited(root.store.tools, audits, entries, root.store.tools.Keys))
  }

  lemma InspectedEntry(root: Root, entries: seq<Entry>, audits: map<string, ToolAudit>, i: nat)
    requires Inspected(root, entries, audits) && i < |entries|
    ensures var e := entries[i];
            && ValidName(e.name) && e.name in audits && LiveSha(root, e) == Some(e.sha)
            && root.store.Store? && e.name in root.store.tools && root.store.tools[e.name].ToolDir?
    ensures var e, tool := entries[i], audits[entries[i].name];
            && tool.original.valid && tool.original.digest.Some?
            && (e.tag in tool.versions ==> tool.versions[e.tag].valid && tool.versions[e.tag].digest.Some?)
            && (EntryActive(root.store, e) <==>
                  (if e.tag in tool.versions && e.tag != ORIGINAL then tool.versions[e.tag].digest
                   else tool.original.digest) == Some(e.sha))
  {
    var e := entries[i];
    assert e in entries && EntryGood(e, false) && LiveGood(root, e, false);
    ByNameFinds(entries, i);
    var tool := root.store.tools[e.name];
    assert StoreChildGood(entries, e.name, tool, false);
    assert Audited(audits[e.name], tool, e.tag);
    assert ChildGood(e.name, ORIGINAL, tool.children[ORIGINAL], e.anchor);
    if e.tag in tool.children {
      assert ChildGood(e.name, e.tag, tool.children[e.tag], e.anchor);
    }
  }

  /** The whole audit. */
  method Scan(root: Root, deep: bool) returns (status: Status)
    ensures status == Healthy <==> AllGood(root, deep, true)
    ensures status == Broken <==> !AllGood(root, deep, false)
    ensures status != Incomplete
  {
    var report := new Report();
    if root.manifestTemps {
      report.Add(Warning, "manifest", "");
    }
    ScanTransactions(report, root.transactions);
    var entries := ScanManifest(report, root.manifest);
    var live := ScanLive(report, root, entries);
    var audits := ScanStore(report, deep, root.store, entries);
    CrossCheck(report, root, entries, live, audits);
    if deep && root.liveTemps {
      report.Add(Warning, "live", "");
    }
    status := report.Finalize();
  }
}
