/** What lies around in the transaction root: journals under their three names, quarantine
    containers, and strays that recovery moves out of the way without losing a byte. */
module Residue {

  datatype Node = File(bytes: string) | SymLink(to: string) | Folder(items: map<string, Node>)

  type Entries = map<string, Node>

  const BUILDING := ".building-"
  const PENDING := "pending-"
  const COMPLETED := "completed-"
  const QUARANTINED := "quarantined-"
  const META := "META"
  const PAYLOAD := "payload"

  datatype Bucket = Building | Pending | Completed | Quarantined | Unknown

  predicate LowerHex(c: char)
  {
    '0' <= c <= '9' || 'a' <= c <= 'f'
  }

  /** The shape of every name that an allocation produces. */
  predicate ContainerName(name: string)
  {
    && |name| == |QUARANTINED| + 16 && QUARANTINED <= name
    && forall c :: c in name[|QUARANTINED|..] ==> LowerHex(c)
  }

  /** A trusted container: exactly a META file and a payload of any kind. */
  predicate ValidContainer(name: string, node: Node)
  {
    && ContainerName(name) && node.Folder? && node.items.Keys == {META, PAYLOAD}
    && node.items[META].File?
  }

  /** Debris of an interrupted allocation: an empty container, or one with its META file alone. */
  predicate Debris(name: string, node: Node)
  {
    && ContainerName(name) && node.Folder?
    && (node.items == map[] || (node.items.Keys == {META} && node.items[META].File?))
  }

  function BucketOf(name: string, node: Node): Bucket
  {
    if BUILDING <= name then Building
    else if QUARANTINED <= name then (if ValidContainer(name, node) then Quarantined else Unknown)
    else if PENDING <= name then Pending
    else if COMPLETED <= name then Completed
    else Unknown
  }

  /** Neither a journal nor a container: moved into quarantine. */
  predicate Stray(name: string, node: Node)
  {
    var bucket := BucketOf(name, node);
    bucket != Quarantined && (!node.Folder? || (bucket == Unknown && Debris(name, node)))
  }

  /** A directory that recovery does not recognise. */
  predicate Foreign(name: string, node: Node)
  {
    BucketOf(name, node) == Unknown && node.Folder? && !Debris(name, node)
  }

  /** A directory under one of the journal's names. */
  predicate JournalAt(name: string, node: Node)
  {
    node.Folder? && BucketOf(name, node) in {Building, Pending, Completed}
  }

  lemma EveryEntryIsOneOfFour(name: string, node: Node)
    ensures ValidContainer(name, node) <==> BucketOf(name, node) == Quarantined
    ensures !(Stray(name, node) && (Foreign(name, node) || JournalAt(name, node) || ValidContainer(name, node)))
    ensures !(Foreign(name, node) && (JournalAt(name, node) || ValidContainer(name, node)))
    ensures !(JournalAt(name, node) && ValidContainer(name, node))
    ensures Stray(name, node) || Foreign(name, node) || JournalAt(name, node) || ValidContainer(name, node)
  {
    assert QUARANTINED <= name ==> name[0] == 'q';
    assert BUILDING <= name ==> name[0] == '.';
  }

  // ---- what every outcome of a recovery keeps ----

  /** The META file of a container names the entry it holds. */
  function MetaOf(name: string, note: string): Node
  {
    File("original_name=" + name + "\n" + note)
  }

  predicate NamedBy(meta: Node, name: string)
  {
    meta.File? && "original_name=" + name + "\n" <= meta.bytes
  }

  /** Container `c` holds this entry, unchanged and under its name. */
  predicate Holder(entries: Entries, c: string, name: string, node: Node)
  {
    c in entries && ValidContainer(c, entries[c])
    && entries[c].items[PAYLOAD] == node && NamedBy(entries[c].items[META], name)
  }

  ghost predicate Quarantine(entries: Entries, name: string, node: Node)
  {
    exists c :: Holder(entries, c, name, node)
  }

  function Container(name: string, node: Node, note: string): Node
  {
    Folder(map[META := MetaOf(name, note), PAYLOAD := node])
  }

  lemma ContainerHolds(entries: Entries, c: string, name: string, node: Node, note: string)
    requires ContainerName(c) && c in entries && entries[c] == Container(name, node, note)
    ensures Holder(entries, c, name, node) && Quarantine(entries, name, node)
  {
    var line := "original_name=" + name + "\n";
    assert line <= line + note;
    assert META != PAYLOAD by { assert META[0] != PAYLOAD[0]; }
    assert entries[c].items.Keys == {META, PAYLOAD};
    assert Holder(entries, c, name, node);
  }

  /** What may become of one entry: it stays as it is, or a stray moves into quarantine. */
  ghost predicate Fate(a: Entries, b: Entries, name: string)
    requires name in a
  {
    (name in b && b[name] == a[name]) || (Stray(name, a[name]) && Quarantine(b, name, a[name]))
  }

  predicate NewEntry(name: string, node: Node)
  {
    ValidContainer(name, node) || Debris(name, node)
  }

  /** Every entry has met its fate, and what is new is a container or its debris. */
  ghost predicate Moved(a: Entries, b: Entries)
  {
    && (forall name :: name in a ==> Fate(a, b, name))
    && (forall name :: name in b ==> (name in a && b[name] == a[name]) || NewEntry(name, b[name]))
  }

  /** Like `Moved`, but journals may have been removed or renamed. */
  ghost predicate Settled(a: Entries, b: Entries)
  {
    && (forall name :: name in a ==> JournalAt(name, a[name]) || Fate(a, b, name))
    && (forall name :: name in b ==>
          (name in a && b[name] == a[name]) || NewEntry(name, b[name]) || JournalAt(name, b[name]))
  }

  lemma MovedKeepsContainer(a: Entries, b: Entries, c: string)
    requires Moved(a, b) && c in a && ValidContainer(c, a[c])
    ensures c in b && b[c] == a[c]
  {
    assert Fate(a, b, c);
    EveryEntryIsOneOfFour(c, a[c]);
  }

  lemma QuarantineStays(a: Entries, b: Entries, name: string, node: Node)
    requires Quarantine(a, name, node) && Moved(a, b)
    ensures Quarantine(b, name, node)
  {
    var c :| Holder(a, c, name, node);
    MovedKeepsContainer(a, b, c);
    assert Holder(b, c, name, node);
  }

  lemma FateTransitive(a: Entries, b: Entries, c: Entries, name: string)
    requires Moved(a, b) && Moved(b, c) && name in a
    ensures Fate(a, c, name)
  {
    assert Fate(a, b, name);
    if name in b && b[name] == a[name] {
      assert Fate(b, c, name);
    } else {
      QuarantineStays(b, c, name, a[name]);
    }
  }

  /** The guarantee holds over any number of recoveries, interrupted or not. */
  lemma MovedTransitive(a: Entries, b: Entries, c: Entries)
    requires Moved(a, b) && Moved(b, c)
    ensures Moved(a, c)
  {
    forall name | name in a ensures Fate(a, c, name) {
      FateTransitive(a, b, c, name);
    }
  }

  lemma SettledFate(a: Entries, b: Entries, c: Entries, name: string)
    requires Settled(a, b) && Settled(b, c) && name in a && !JournalAt(name, a[name])
    ensures Fate(a, c, name)
  {
    assert Fate(a, b, name);
    if name in b && b[name] == a[name] {
      assert Fate(b, c, name);
    } else {
      var h :| Holder(b, h, name, a[name]);
      EveryEntryIsOneOfFour(h, b[h]);
      assert Fate(b, c, h);
      assert Holder(c, h, name, a[name]);
    }
  }

  /** Nothing is lost over any number of recoveries. */
  lemma SettledTransitive(a: Entries, b: Entries, c: Entries)
    requires Settled(a, b) && Settled(b, c)
    ensures Settled(a, c)
  {
    forall name | name in a ensures JournalAt(name, a[name]) || Fate(a, c, name) {
      if !JournalAt(name, a[name]) {
        SettledFate(a, b, c, name);
      }
    }
  }

  lemma SettledStep(a: Entries, b: Entries, c: Entries)
    requires Moved(a, b) && OnlyJournals(b, c)
    ensures Settled(a, c)
  {
    forall name | name in a && !JournalAt(name, a[name]) ensures Fate(a, c, name) {
      assert Fate(a, b, name);
      if !(name in b && b[name] == a[name]) {
        var h :| Holder(b, h, name, a[name]);
        EveryEntryIsOneOfFour(h, b[h]);
        assert Holder(c, h, name, a[name]);
      }
    }
  }

  /** Nothing that recovery knows: not a journal's name, and not a container, complete or interrupted. */
  predicate Odd(name: string, items: map<string, Node>)
  {
    && !(".building-" <= name) && !("pending-" <= name) && !("completed-" <= name)
    && !(&& ContainerName(name) && (items.Keys == {} || items.Keys == {"META"} || items.Keys == {"META", "payload"})
         && ("META" in items ==> items["META"].File?))
  }

  lemma OddIsForeign(name: string, node: Node)
    requires node.Folder?
    ensures Foreign(name, node) <==> Odd(name, node.items)
  {
    assert QUARANTINED <= name ==> name[0] == 'q' && !(BUILDING <= name) && !(PENDING <= name) && !(COMPLETED <= name);
    assert node.items.Keys == {} <==> node.items == map[];
    assert META != PAYLOAD by { assert META[0] != PAYLOAD[0]; }
  }

  lemma PlainIsStray(name: string, node: Node)
    requires !node.Folder?
    ensures Stray(name, node)
  {}

  /** In quarantine an entry has its bytes and its name. */
  lemma HeldSpelledOut(entries: Entries, name: string, node: Node)
    requires Quarantine(entries, name, node)
    ensures exists c, note :: c in entries && entries[c] == Folder(map["META" := File("original_name=" + name + "\n" + note),
                                                                      "payload" := node])
  {
    var c :| Holder(entries, c, name, node);
    var line := "original_name=" + name + "\n";
    var note := entries[c].items[META].bytes[|line|..];
    assert entries[c].items[META].bytes == line + note;
    assert entries[c].items == map["META" := File(line + note), "payload" := node];
  }

  lemma SettledSpelledOut(a: Entries, b: Entries)
    requires Settled(a, b)
    ensures PlainStrays(a, a.Keys) == set name | name in a && !a[name].Folder?
    ensures forall name :: name in a && !a[name].Folder? ==>
              (name in b && b[name] == a[name])
              || exists c, note :: c in b && b[c] == Folder(map["META" := File("original_name=" + name + "\n" + note),
                                                               "payload" := a[name]])
  {
    hide Stray, ValidContainer, NewEntry, Quarantine;
    forall name | name in a && !a[name].Folder?
      ensures Stray(name, a[name])
      ensures (name in b && b[name] == a[name])
              || exists c, note :: c in b && b[c] == Folder(map["META" := File("original_name=" + name + "\n" + note),
                                                               "payload" := a[name]])
    {
      PlainIsStray(name, a[name]);
      assert Fate(a, b, name);
      if !(name in b && b[name] == a[name]) {
        HeldSpelledOut(b, name, a[name]);
      }
    }
  }

  /** Recovery leaves nothing that the next one does not recognise, unless it was there. */
  lemma NothingOdd(a: Entries, b: Entries)
    requires Settled(a, b)
    ensures (exists name :: name in a && a[name].Folder? && Odd(name, a[name].items))
            <==> exists name :: name in a && Foreign(name, a[name])
    ensures (exists name :: name in b && b[name].Folder? && Odd(name, b[name].items)) ==>
              exists name :: name in a && a[name].Folder? && Odd(name, a[name].items)
  {
    forall name | name in a && a[name].Folder? ensures Foreign(name, a[name]) <==> Odd(name, a[name].items) {
      OddIsForeign(name, a[name]);
    }
    forall name | name in b && b[name].Folder? ensures Foreign(name, b[name]) <==> Odd(name, b[name].items) {
      OddIsForeign(name, b[name]);
      EveryEntryIsOneOfFour(name, b[name]);
    }
  }

  /** Nothing but containers. */
  predicate Clean(entries: Entries)
  {
    forall name :: name in entries ==> ValidContainer(name, entries[name])
  }

  /** Nothing but journals may have changed. */
  ghost predicate OnlyJournals(a: Entries, b: Entries)
  {
    && (forall name :: name in a && !JournalAt(name, a[name]) ==> name in b && b[name] == a[name])
    && (forall name :: name in b ==> (name in a && b[name] == a[name]) || JournalAt(name, b[name]))
  }

  function Strays(entries: Entries, names: set<string>): set<string>
  {
    set name | name in names && name in entries && Stray(name, entries[name])
  }

  function PlainStrays(entries: Entries, names: set<string>): set<string>
  {
    set name | name in names && name in entries && Stray(name, entries[name]) && !entries[name].Folder?
  }

  /** These entries are gone; all others stay, and what is new is a container. */
  ghost predicate Swept(a: Entries, b: Entries, moved: set<string>)
  {
    && (forall name :: name in a && name !in moved ==> name in b && b[name] == a[name])
    && (forall name :: name in b ==> (name in a && name !in moved && b[name] == a[name]) || ValidContainer(name, b[name]))
  }

  /** How far a sweep has come. */
  ghost predicate SweepAt(start: Entries, first: Entries, now: Entries, done: set<string>, reported: set<string>)
  {
    Moved(start, now) && Swept(first, now, Strays(first, done)) && reported == PlainStrays(first, done)
  }

  lemma SweepStarts(start: Entries, first: Entries)
    requires Moved(start, first)
    ensures SweepAt(start, first, first, {}, {})
  {}

  lemma StraysStep(entries: Entries, done: set<string>, name: string)
    requires name in entries && name !in done
    ensures Strays(entries, done + {name}) == Strays(entries, done) + (if Stray(name, entries[name]) then {name} else {})
    ensures PlainStrays(entries, done + {name}) == PlainStrays(entries, done)
              + (if Stray(name, entries[name]) && !entries[name].Folder? then {name} else {})
  {}

  lemma SweptStep(a: Entries, b: Entries, c: Entries, moved: set<string>, name: string, container: string)
    requires Swept(a, b, moved) && name in a && name !in moved && name in b && Stray(name, b[name])
    requires container !in b && c.Keys == b.Keys - {name} + {container} && ValidContainer(container, c[container])
    requires forall other :: other in c && other != container ==> c[other] == b[other]
    ensures Swept(a, c, moved + {name})
  {
    EveryEntryIsOneOfFour(name, b[name]);
  }

  lemma KnownStays(start: Entries, first: Entries, unknown: set<string>, known: set<string>)
    requires known <= start.Keys && unknown !! known && Swept(start, first, Strays(start, unknown))
    ensures forall name :: name in known ==> name in first && first[name] == start[name]
    ensures PlainStrays(first, known) == PlainStrays(start, known)
  {
    forall name | name in known ensures name in first && first[name] == start[name] {
      assert name !in Strays(start, unknown);
    }
  }

  /** After both sweeps only journals and containers are left. */
  lemma SweptTwice(start: Entries, first: Entries, second: Entries, unknown: set<string>, known: set<string>,
                   dirs: set<string>)
    requires unknown + known <= start.Keys && unknown !! known && dirs <= known
    requires forall name :: name in start ==> name in unknown + known || ValidContainer(name, start[name])
    requires forall name :: name in unknown ==> Stray(name, start[name])
    requires forall name :: name in known && name !in dirs ==> Stray(name, start[name])
    requires forall name :: name in dirs ==> JournalAt(name, start[name]) && !Stray(name, start[name])
    requires Swept(start, first, Strays(start, unknown)) && Swept(first, second, Strays(first, known))
    ensures forall name :: name in dirs ==> name in second && second[name] == start[name]
    ensures forall name :: name in second && name !in dirs ==> ValidContainer(name, second[name])
  {
    forall name | name in known ensures name in first && first[name] == start[name] {
      assert name !in Strays(start, unknown);
    }
    forall name | name in second && name !in dirs ensures ValidContainer(name, second[name]) {
      if name in first && name !in Strays(first, known) && second[name] == first[name] {
        assert name !in known;
        if name in start && name !in Strays(start, unknown) && first[name] == start[name] {
          assert name !in unknown;
        }
      }
    }
  }

  lemma EmptierIsJournal(name: string, node: Node, left: Node)
    requires JournalAt(name, node) && left.Folder?
    ensures JournalAt(name, left)
  {
    assert QUARANTINED <= name ==> name[0] == 'q';
  }

  lemma CompletedIsJournal(name: string, node: Node)
    requires COMPLETED <= name && node.Folder?
    ensures JournalAt(name, node)
  {
    assert name[0] == 'c';
    assert !(BUILDING <= name) && !(QUARANTINED <= name) && !(PENDING <= name);
  }

  lemma OnlyOne(names: set<string>, name: string)
    requires name in names && |names| <= 1
    ensures names == {name}
  {
    assert |names - {name}| == |names| - 1;
  }

  // ---- how many containers there can be ----

  function Pow16(k: nat): nat
  {
    if k == 0 then 1 else 16 * Pow16(k - 1)
  }

  function HexChar(n: nat): (c: char)
    requires n < 16
    ensures LowerHex(c)
  {
    if n < 10 then '0' + n as char else 'a' + (n - 10) as char
  }

  /** `n` in `k` lower-case digits. */
  function Hex(n: nat, k: nat): (s: string)
    ensures |s| == k && forall c :: c in s ==> LowerHex(c)
  {
    if k == 0 then "" else Hex(n / 16, k - 1) + [HexChar(n % 16)]
  }

  lemma {:induction false} HexIsInjective(n: nat, m: nat, k: nat)
    requires n < Pow16(k) && m < Pow16(k) && Hex(n, k) == Hex(m, k)
    ensures n == m
  {
    if k > 0 {
      var a, b := Hex(n, k), Hex(m, k);
      assert a[..k - 1] == Hex(n / 16, k - 1) && b[..k - 1] == Hex(m / 16, k - 1);
      assert a[k - 1] == HexChar(n % 16) && b[k - 1] == HexChar(m % 16);
      HexIsInjective(n / 16, m / 16, k - 1);
    }
  }

  function NumberedName(n: nat): (name: string)
    ensures ContainerName(name)
  {
    QUARANTINED + Hex(n, 16)
  }

  lemma NumberedNamesDiffer(i: nat, j: nat)
    requires i < j < Pow16(16)
    ensures NumberedName(i) != NumberedName(j)
  {
    if NumberedName(i) == NumberedName(j) {
      assert NumberedName(i)[|QUARANTINED|..] == Hex(i, 16) && NumberedName(j)[|QUARANTINED|..] == Hex(j, 16);
      HexIsInjective(i, j, 16);
    }
  }

  /** Fewer entries than names leave a name free. */
  lemma {:induction false} SomeNameIsFree(taken: set<string>, n: nat) returns (i: nat)
    requires |taken| < n <= Pow16(16)
    ensures i < n && NumberedName(i) !in taken
  {
    i := n - 1;
    if NumberedName(i) in taken {
      i := SomeNameIsFree(taken - {NumberedName(n - 1)}, n - 1);
      NumberedNamesDiffer(i, n - 1);
    }
  }

  predicate Spacious(entries: Entries)
  {
    |entries| < Pow16(16)
  }

  /** One entry has gone into a new container, and nothing else has changed. */
  ghost predicate Aside(a: Entries, b: Entries, name: string, container: string)
    requires name in a
  {
    && container !in a && b.Keys == a.Keys - {name} + {container} && |b| == |a|
    && Holder(b, container, name, a[name])
    && (forall other :: other in b && other != container ==> b[other] == a[other])
  }

  lemma StaysSpacious(a: Entries, b: Entries, name: string, container: string)
    requires name in a && container !in a && b.Keys == a.Keys - {name} + {container}
    ensures |b| == |a|
  {
    assert |a.Keys| == |a| && |b.Keys| == |b|;
    assert |a.Keys - {name}| == |a| - 1;
  }

  predicate PendingDir(name: string, node: Node)
  {
    PENDING <= name && node.Folder?
  }

  /** No directory is foreign, and at most one is a pending journal. */
  ghost predicate Recognised(entries: Entries)
  {
    && (forall name :: name in entries ==> !Foreign(name, entries[name]))
    && (forall a, b :: a in entries && b in entries && PendingDir(a, entries[a]) && PendingDir(b, entries[b]) ==> a == b)
  }

  ghost predicate SomePending(entries: Entries)
  {
    exists name :: name in entries && PendingDir(name, entries[name])
  }

  predicate Lone(names: set<string>)
  {
    forall a, b :: a in names && b in names && PENDING <= a && PENDING <= b ==> a == b
  }

  lemma AtMostOne(names: set<string>, pending: set<string>)
    requires pending == set name | name in names && PENDING <= name
    ensures |pending| <= 1 <==> Lone(names)
  {
    if pending != {} {
      var a :| a in pending;
      if Lone(names) {
        assert pending == {a};
      }
    }
    if |pending| <= 1 {
      forall x, y | x in names && y in names && PENDING <= x && PENDING <= y ensures x == y {
        assert x in pending && y in pending;
        OnlyOne(pending, x);
      }
    }
  }

  lemma PendingAreJournals(entries: Entries, dirs: set<string>)
    requires dirs == set name | name in entries && JournalAt(name, entries[name])
    ensures forall name :: name in dirs && PENDING <= name <==> name in entries && PendingDir(name, entries[name])
  {
    forall name | PENDING <= name
      ensures name in dirs <==> name in entries && PendingDir(name, entries[name])
    {
      assert name[0] == 'p';
      assert !(BUILDING <= name) && !(QUARANTINED <= name);
    }
  }

  lemma NoContainer(name: string)
    requires COMPLETED <= name
    ensures !ContainerName(name) && !(PENDING <= name)
  {
    assert name[0] == 'c';
  }

  class TransactionRoot {
    var entries: Entries
    /** Nothing fails, and random names are new as long as there are any. */
    const reliable: bool
    /** The participants let the pending journal be resolved. */
    const resolvable: bool

    constructor (entries: Entries, reliable: bool, resolvable: bool)
      ensures this.entries == entries && this.reliable == reliable && this.resolvable == resolvable
    {
      this.entries, this.reliable, this.resolvable := entries, reliable, resolvable;
    }

    /** The environment decides whether the process fails or stops here. */
    method Hazard() returns (stops: bool)
      ensures reliable ==> !stops
    {
      stops := *;
      stops := stops && !reliable;
    }

    /** Create an empty container under a name that nothing has. */
    method Allocate() returns (ok: bool, name: string)
      modifies this
      ensures ok ==> ContainerName(name) && name !in old(entries) && entries == old(entries)[name := Folder(map[])]
      ensures !ok ==> entries == old(entries)
      ensures reliable && Spacious(old(entries)) ==> ok
    {
      for attempt := 0 to 64
        invariant unchanged(this)
        invariant reliable && Spacious(entries) ==> attempt == 0
      {
        var candidate: string := *;
        if reliable && Spacious(entries) {
          var i := SomeNameIsFree(entries.Keys, Pow16(16));
          candidate :| ContainerName(candidate) && candidate !in entries;
        }
        if ContainerName(candidate) && candidate !in entries {
          entries := entries[candidate := Folder(map[])];
          return true, candidate;
        }
      }
      ok, name := false, "";
    }

    /** Move one entry into a fresh container: META first, then the entry itself. The process may
        stop after each step. */
    method MoveAside(name: string, note: string) returns (ok: bool, container: string)
      requires name in entries && Stray(name, entries[name])
      modifies this
      ensures Moved(old(entries), entries)
      ensures ok ==> Aside(old(entries), entries, name, container)
      ensures reliable && Spacious(old(entries)) ==> ok
    {
      EveryEntryIsOneOfFour(name, entries[name]);
      ghost var before := entries;
      ok, container := Allocate();
      var stops := Hazard();
      if !ok || stops {
        return false, container;
      }
      entries := entries[container := Folder(map[META := MetaOf(name, note)])];
      stops := Hazard();
      if stops {
        return false, container;
      }
      entries := (entries - {name})[container := Container(name, entries[name], note)];
      AsideIsMoved(before, entries, name, container, note);
      stops := Hazard();
      ok := !stops;
    }

    /** Move aside every stray among these entries; the rest of them stays. */
    method Sweep(names: set<string>, ghost start: Entries) returns (ok: bool, reported: set<string>)
      requires names <= entries.Keys && Moved(start, entries)
      modifies this
      ensures Moved(start, entries)
      ensures ok ==> SweepAt(start, old(entries), entries, names, reported)
      ensures names == {} ==> ok && entries == old(entries)
      ensures ok ==> |entries| == |old(entries)|
      ensures reliable && Spacious(old(entries)) ==> ok
    {
      hide Swept, Strays, PlainStrays, Stray;
      reported := {};
      ghost var first, done := entries, {};
      var rest := names;
      SweepStarts(start, first);
      while rest != {}
        invariant rest <= names && done == names - rest && names <= first.Keys
        invariant SweepAt(start, first, entries, done, reported)
        invariant names == {} ==> entries == first
        invariant |entries| == |first|
        decreases |rest|
      {
        var name :| name in rest;
        ok, reported := SweepOne(name, reported, start, first, done);
        if !ok {
          return;
        }
        rest, done := rest - {name}, done + {name};
      }
      assert done == names;
      ok := true;
    }

    method SweepOne(name: string, reported: set<string>, ghost start: Entries, ghost first: Entries, ghost done: set<string>)
      returns (ok: bool, next: set<string>)
      requires name in first && name !in done && SweepAt(start, first, entries, done, reported)
      modifies this
      ensures Moved(start, entries)
      ensures ok ==> SweepAt(start, first, entries, done + {name}, next) && |entries| == |old(entries)|
      ensures reliable && Spacious(old(entries)) ==> ok
    {
      assert name in entries && entries[name] == first[name];
      StraysStep(first, done, name);
      ok, next := true, reported;
      if Stray(name, entries[name]) {
        var plain := !entries[name].Folder?;
        ghost var before := entries;
        var container;
        ok, container := MoveAside(name, if plain then "" else "note=moved intact");
        MovedTransitive(start, before, entries);
        if ok {
          SweptStep(first, before, entries, Strays(first, done), name, container);
        }
        next := if plain then reported + {name} else reported;
      }
    }

    /** Remove one journal directory; a failure may leave a part of it. */
    method RemoveJournal(name: string) returns (ok: bool)
      requires name in entries && JournalAt(name, entries[name])
      modifies this
      ensures OnlyJournals(old(entries), entries)
      ensures ok ==> entries == old(entries) - {name}
      ensures reliable ==> ok
    {
      var fails := Hazard();
      if fails {
        var left: map<string, Node> := *;
        EmptierIsJournal(name, entries[name], Folder(left));
        entries := entries[name := Folder(left)];
        return false;
      }
      entries := entries - {name};
      ok := true;
    }

    method RemoveJournals(names: set<string>) returns (ok: bool)
      requires forall name :: name in names ==> name in entries && JournalAt(name, entries[name])
      modifies this
      ensures OnlyJournals(old(entries), entries)
      ensures ok ==> entries == old(entries) - names
      ensures names == {} || reliable ==> ok
    {
      var rest := names;
      while rest != {}
        invariant rest <= names && entries == old(entries) - (names - rest)
        decreases |rest|
      {
        var name :| name in rest;
        ok := RemoveJournal(name);
        if !ok {
          return;
        }
        rest := rest - {name};
      }
      ok := true;
    }

    /** Resolve the pending journal. What that does to the participants is the subject of the
        recovery module; here the journal takes its final name and goes. */
    method ResolvePending(name: string) returns (ok: bool)
      requires name in entries && JournalAt(name, entries[name]) && PENDING <= name
      modifies this
      ensures OnlyJournals(old(entries), entries)
      ensures ok ==> entries == old(entries) - {name} && resolvable
      ensures reliable && resolvable && COMPLETED + name[|PENDING|..] !in old(entries) ==> ok
    {
      var stops := Hazard();
      var done := COMPLETED + name[|PENDING|..];
      if stops || !resolvable || done in entries {
        return false;
      }
      CompletedIsJournal(done, entries[name]);
      entries := (entries - {name})[done := entries[name]];
      ok := RemoveJournal(done);
    }

    /** Remove what the three kinds of journals left, pending ones last and only when there is one. */
    method ClearJournals(names: set<string>) returns (ok: bool)
      requires forall name :: name in names ==> name in entries && JournalAt(name, entries[name])
      modifies this
      ensures OnlyJournals(old(entries), entries)
      ensures ok ==> entries == old(entries) - names
      ensures names == {} ==> ok
      ensures ok ==> Lone(names) && ((exists name :: name in names && PENDING <= name) ==> resolvable)
      ensures reliable && Lone(names) && ((exists name :: name in names && PENDING <= name) ==> resolvable)
              && (forall name :: name in old(entries) && name !in names ==> ValidContainer(name, old(entries)[name])) ==>
                ok
    {
      var pending := set name | name in names && PENDING <= name;
      AtMostOne(names, pending);
      if |pending| > 1 {
        return false;
      }
      ok := RemoveJournals(names - pending);
      if !ok || pending == {} {
        return;
      }
      ghost var before := entries;
      var name :| name in pending;
      OnlyOne(pending, name);
      if COMPLETED + name[|PENDING|..] in entries {
        // A completed journal would have been removed, and no container has this name.
        EveryEntryIsOneOfFour(COMPLETED + name[|PENDING|..], entries[COMPLETED + name[|PENDING|..]]);
        NoContainer(COMPLETED + name[|PENDING|..]);
      }
      ok := ResolvePending(name);
    }

    /** Inspect, then move every stray aside, unless a directory is not recognised. */
    method Isolate() returns (ok: bool, summary: set<string>, dirs: set<string>)
      modifies this
      ensures Moved(old(entries), entries)
      ensures (exists name :: name in old(entries) && Foreign(name, old(entries)[name])) ==> !ok
      ensures ok ==> summary == PlainStrays(old(entries), old(entries).Keys)
      ensures ok ==> forall name :: name in dirs ==> name in entries && JournalAt(name, entries[name])
      ensures ok ==> forall name :: name in entries && name !in dirs ==> ValidContainer(name, entries[name])
      ensures Clean(old(entries)) ==> ok && entries == old(entries) && summary == {} && dirs == {}
      ensures dirs == set name | name in old(entries) && JournalAt(name, old(entries)[name])
      ensures reliable && Spacious(old(entries))
              && (forall name :: name in old(entries) ==> !Foreign(name, old(entries)[name])) ==>
                ok
    {
      ghost var start := entries;
      assert Moved(start, start);
      summary := {};
      var unknown := set name | name in entries && BucketOf(name, entries[name]) == Unknown;
      var known := set name | name in entries && BucketOf(name, entries[name]) in {Building, Pending, Completed};
      var foreign := set name | name in unknown && Foreign(name, entries[name]);
      dirs := set name | name in known && entries[name].Folder?;
      Inventory(start, unknown, known, foreign, dirs);
      var moved, strays;
      ok, moved := Sweep(unknown, start);
      if !ok || foreign != {} {
        return false, summary, dirs;
      }
      ghost var first := entries;
      assert known <= first.Keys by { KnownStays(start, first, unknown, known); }
      ok, strays := Sweep(known, start);
      if !ok {
        return;
      }
      KnownStays(start, first, unknown, known);
      SweptTwice(start, first, entries, unknown, known, dirs);
      summary := moved + strays;
    }

    /** Recovery from the transaction root. */
    method Recover() returns (ok: bool, summary: set<string>)
      modifies this
      // No outcome loses or alters anything but journals, and what is new is recognised next time.
      ensures Settled(old(entries), entries)
      // An unrecognised directory stops recovery before any journal is touched.
      ensures (exists name :: name in old(entries) && Foreign(name, old(entries)[name])) ==>
                !ok && Moved(old(entries), entries)
      // Success leaves quarantine containers and nothing else, and reports what it put there.
      ensures ok ==> Clean(entries) && summary == PlainStrays(old(entries), old(entries).Keys)
      // Spelled out: what is no directory is in quarantine with its bytes and its name, and nothing else is reported.
      ensures ok ==> summary == set name | name in old(entries) && !old(entries)[name].Folder?
      ensures forall name :: name in old(entries) && !old(entries)[name].Folder? ==>
                (name in entries && entries[name] == old(entries)[name])
                || exists c, note :: c in entries
                                     && entries[c] == Folder(map["META" := File("original_name=" + name + "\n" + note),
                                                                "payload" := old(entries)[name]])
      // A directory is not recognised when it has none of the names and is neither a container nor the debris of
      // one; nothing that recovery leaves is of that kind unless it was there.
      ensures (exists name :: name in old(entries) && old(entries)[name].Folder? && Odd(name, old(entries)[name].items)) ==> !ok
      ensures (exists name :: name in entries && entries[name].Folder? && Odd(name, entries[name].items)) ==>
                exists name :: name in old(entries) && old(entries)[name].Folder? && Odd(name, old(entries)[name].items)
      // On a clean root recovery does nothing and has nothing to report.
      ensures Clean(old(entries)) ==> ok && entries == old(entries) && summary == {}
      // Without faults it succeeds exactly when every directory is recognised, at most one journal is
      // pending, and the participants let that one be resolved.
      ensures ok ==> Recognised(old(entries)) && (SomePending(old(entries)) ==> resolvable)
      ensures reliable && Spacious(old(entries)) && Recognised(old(entries))
              && (SomePending(old(entries)) ==> resolvable) ==>
                ok
      ensures reliable && Spacious(old(entries))
              && (forall name :: name in old(entries) && old(entries)[name].Folder? ==> !Odd(name, old(entries)[name].items))
              && (forall a, b :: (a in old(entries) && old(entries)[a].Folder? && "pending-" <= a
                                  && b in old(entries) && old(entries)[b].Folder? && "pending-" <= b) ==> a == b)
              && ((exists name :: name in old(entries) && old(entries)[name].Folder? && "pending-" <= name) ==> resolvable) ==>
                ok
    {
      hide Stray, Foreign, Odd, Fate, JournalAt, ValidContainer;
      var dirs;
      ok, summary, dirs := Isolate();
      ghost var isolated := entries;
      PendingAreJournals(old(entries), dirs);
      if ok {
        ok := ClearJournals(dirs);
      }
      SettledStep(old(entries), isolated, entries);
      SettledSpelledOut(old(entries), entries);
      NothingOdd(old(entries), entries);
    }

    /** Try again until an attempt succeeds; each may stop anywhere. */
    method RecoverAgain(attempts: nat) returns (ok: bool)
      modifies this
      ensures Settled(old(entries), entries)
      ensures ok ==> Clean(entries)
      // Without faults one attempt is enough, unless nothing but a repair helps.
      ensures attempts > 0 && reliable && Spacious(old(entries)) && Recognised(old(entries))
              && (SomePending(old(entries)) ==> resolvable) ==>
                ok
    {
      ok := false;
      assert forall name :: name in entries ==> Fate(entries, entries, name);
      for attempt := 0 to attempts
        invariant Settled(old(entries), entries) && !ok
        invariant attempt == 0 ==> entries == old(entries)
        invariant attempt > 0 ==> !(reliable && Spacious(old(entries)) && Recognised(old(entries))
                                    && (SomePending(old(entries)) ==> resolvable))
      {
        ghost var before := entries;
        var summary;
        ok, summary := Recover();
        SettledTransitive(old(entries), before, entries);
        if ok {
          return;
        }
      }
    }
  }

  /** The two buckets, the directories among the known names, and what is left: containers. */
  lemma Inventory(start: Entries, unknown: set<string>, known: set<string>, foreign: set<string>, dirs: set<string>)
    requires unknown == set name | name in start && BucketOf(name, start[name]) == Unknown
    requires known == set name | name in start && BucketOf(name, start[name]) in {Building, Pending, Completed}
    requires foreign == set name | name in unknown && Foreign(name, start[name])
    requires dirs == set name | name in known && start[name].Folder?
    ensures unknown !! known
    ensures forall name :: name in start ==> name in unknown + known || ValidContainer(name, start[name])
    ensures forall name :: name in start && Foreign(name, start[name]) ==> name in foreign
    ensures forall name :: name in unknown && name !in foreign ==> Stray(name, start[name])
    ensures forall name :: name in known && name !in dirs ==> Stray(name, start[name])
    ensures forall name :: name in dirs ==> JournalAt(name, start[name]) && !Stray(name, start[name])
    ensures PlainStrays(start, unknown) + PlainStrays(start, known) == PlainStrays(start, start.Keys)
    ensures Clean(start) ==> unknown == {} && known == {}
    ensures dirs == set name | name in start && JournalAt(name, start[name])
    ensures foreign == {} <==> forall name :: name in start ==> !Foreign(name, start[name])
  {
    forall name | name in start
      ensures name in unknown + known || ValidContainer(name, start[name])
      ensures Foreign(name, start[name]) ==> name in foreign
      ensures Clean(start) ==> name !in unknown + known
    {
      EveryEntryIsOneOfFour(name, start[name]);
    }
  }

  lemma AsideIsMoved(a: Entries, b: Entries, name: string, container: string, note: string)
    requires name in a && Stray(name, a[name]) && container !in a && ContainerName(container)
    requires b == (a - {name})[container := Container(name, a[name], note)]
    ensures Moved(a, b) && Aside(a, b, name, container)
  {
    ContainerHolds(b, container, name, a[name], note);
    StaysSpacious(a, b, name, container);
    forall other | other in a ensures Fate(a, b, other) {}
  }
}
