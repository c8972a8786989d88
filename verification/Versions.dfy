/** The immutable version store of one tool: write-once versions and history-aware pruning. */
module Versions {
  import opened Options
  import opened Names

  /** A computed digest: lower case. */
  type Sha = s: string | ValidDigest(s) && s == Lower(s) witness seq(64, _ => '0')

  datatype Item = Binary(file: string, digest: Sha) | Stray(file: string)

  /** An entry of the tool's directory. */
  datatype Place = Plain | Folder(items: seq<Item>)

  type Places = map<string, Place>

  datatype Ref = Ref(tag: string, sha: string)

  predicate Space(c: char)
  {
    c in {' ', '\t', '\n', '\r'} || c as int in {11, 12, 0x85, 0xA0, 0x1680, 0x2028, 0x2029, 0x202F, 0x205F, 0x3000}
    || 0x2000 <= c as int <= 0x200A
  }

  /** The store's own rule for tags is stricter than the manifest's. */
  predicate ValidVersion(tag: string)
  {
    ValidTag(tag) && (exists c :: c in tag && !Space(c)) && (forall c :: c in tag ==> c >= ' ' && c as int != 0x7F)
  }

  predicate ValidPlace(tag: string)
  {
    tag == ORIGINAL || ValidVersion(tag)
  }

  /** The digest of a version whose directory holds exactly one regular file. */
  function Inspect(places: Places, tag: string): (digest: Option<Sha>)
    ensures digest.Some? ==> tag in places && ValidPlace(tag)
  {
    if ValidPlace(tag) && tag in places && places[tag].Folder?
       && |places[tag].items| == 1 && places[tag].items[0].Binary?
    then Some(places[tag].items[0].digest)
    else None
  }

  predicate Tidy(places: Places, tag: string)
    requires tag in places
  {
    if EqualFold(tag, ORIGINAL) then tag == ORIGINAL && places[tag].Folder?
    else ValidVersion(tag) && Inspect(places, tag).Some?
  }

  /** Every version on disk is well-formed, and the reserved name is spelled as reserved. */
  predicate Orderly(places: Places)
  {
    forall tag :: tag in places ==> Tidy(places, tag)
  }

  /** The version is there with this digest. */
  predicate Stored(places: Places, ref: Ref)
  {
    ref.tag != "" && ref.sha != "" && Inspect(places, ref.tag) == Some(Lower(ref.sha))
  }

  predicate AllStored(places: Places, refs: seq<Ref>)
  {
    forall ref :: ref in refs ==> Stored(places, ref)
  }

  function Tags(refs: seq<Ref>): set<string>
  {
    set i | 0 <= i < |refs| :: refs[i].tag
  }

  datatype Request = Request(current: Ref, pinned: string, ancestors: seq<Ref>, retain: int)

  datatype Plan = Plan(current: Ref, protected: seq<Ref>, delete: seq<Ref>)

  function Retained(request: Request): seq<Ref>
    requires request.retain >= 0
  {
    if request.retain < |request.ancestors| then request.ancestors[..request.retain] else request.ancestors
  }

  /** Everything that must survive is there: the current version, the original, the first ancestors. */
  predicate Plannable(places: Places, request: Request)
  {
    && request.retain >= 0 && Orderly(places) && Inspect(places, ORIGINAL).Some?
    && (request.pinned != "" ==> ValidVersion(request.pinned))
    && Stored(places, request.current) && AllStored(places, Retained(request))
  }

  /** The tags a request protects: the pin only when it is installed. */
  function Needed(places: Places, request: Request): set<string>
    requires request.retain >= 0
  {
    {request.current.tag, ORIGINAL} + Tags(Retained(request))
    + (if request.pinned in places then {request.pinned} else {})
  }

  /** The active version, the original, the first ancestors, and the pin when it is installed. */
  lemma WhatIsNeeded(places: Places, request: Request)
    requires request.retain >= 0
    ensures forall tag :: tag in places ==>
              (tag in Needed(places, request) <==>
               tag in {request.current.tag, ORIGINAL, request.pinned}
               || exists i :: 0 <= i < |request.ancestors| && i < request.retain && request.ancestors[i].tag == tag)
  {
    var refs := Retained(request);
    assert forall i :: 0 <= i < |refs| ==> refs[i] == request.ancestors[i];
    assert forall i :: 0 <= i < |request.ancestors| && i < request.retain ==> refs[i] == request.ancestors[i];
  }

  /** The plan keeps exactly what is needed and deletes all else, each bound to its digest. */
  predicate Faithful(places: Places, request: Request, plan: Plan)
    requires request.retain >= 0
  {
    && plan.current == Ref(request.current.tag, Lower(request.current.sha))
    && Tags(plan.protected) == Needed(places, request)
    && Tags(plan.delete) == places.Keys - Needed(places, request)
    && AllStored(places, plan.protected) && AllStored(places, plan.delete)
    && AllExact(places, plan.protected) && AllExact(places, plan.delete)
  }

  /** The digests are as they were read. */
  predicate AllExact(places: Places, refs: seq<Ref>)
  {
    forall ref :: ref in refs ==> Inspect(places, ref.tag) == Some(ref.sha)
  }

  /** Every digest in the map is the one on disk. */
  ghost predicate Bound(places: Places, digests: map<string, string>)
  {
    forall tag :: tag in digests ==> Inspect(places, tag) == Some(digests[tag])
  }

  /** The map holds exactly these references. */
  ghost predicate Collected(protected: map<string, string>, refs: seq<Ref>)
  {
    && protected.Keys == Tags(refs)
    && (forall ref :: ref in refs ==>
          ref.tag != "" && ref.sha != "" && ref.tag in protected && protected[ref.tag] == Lower(ref.sha))
  }

  lemma CollectedIsBound(places: Places, protected: map<string, string>, refs: seq<Ref>)
    requires Collected(protected, refs)
    ensures Bound(places, protected) <==> AllStored(places, refs)
  {
    if AllStored(places, refs) {
      forall tag | tag in protected ensures Inspect(places, tag) == Some(protected[tag]) {
        var i :| 0 <= i < |refs| && refs[i].tag == tag;
        assert Stored(places, refs[i]);
      }
    }
  }

  lemma TagsOfMore(refs: seq<Ref>, ref: Ref)
    ensures Tags(refs + [ref]) == Tags(refs) + {ref.tag}
  {
    forall tag ensures tag in Tags(refs + [ref]) <==> tag in Tags(refs) + {ref.tag} {
      if tag in Tags(refs) {
        var i :| 0 <= i < |refs| && refs[i].tag == tag;
        assert (refs + [ref])[i].tag == tag;
      }
      if tag == ref.tag {
        assert (refs + [ref])[|refs|].tag == tag;
      }
    }
  }

  /** Add one reference; two digests for one tag are a conflict. */
  method AddProtected(ghost places: Places, protected: map<string, string>, ref: Ref, ghost refs: seq<Ref>)
    returns (ok: bool, next: map<string, string>)
    requires Collected(protected, refs)
    ensures ok ==> Collected(next, refs + [ref])
    ensures !ok ==> !AllStored(places, refs + [ref])
  {
    next := protected;
    TagsOfMore(refs, ref);
    assert ref in refs + [ref];
    if ref.tag == "" || ref.sha == "" || !ValidPlace(ref.tag) {
      return false, next;
    }
    if ref.tag in protected && protected[ref.tag] != Lower(ref.sha) {
      Conflict(places, protected, ref, refs);
      return false, next;
    }
    ok, next := true, protected[ref.tag := Lower(ref.sha)];
    assert forall other :: other in refs + [ref] ==> other in refs || other == ref;
  }

  lemma Conflict(places: Places, protected: map<string, string>, ref: Ref, refs: seq<Ref>)
    requires Collected(protected, refs) && ref.tag in protected && protected[ref.tag] != Lower(ref.sha)
    ensures !AllStored(places, refs + [ref])
  {
    var i :| 0 <= i < |refs| && refs[i].tag == ref.tag;
    assert refs[i] in refs + [ref] && ref in refs + [ref];
    assert !Stored(places, refs[i]) || !Stored(places, ref);
  }

  /** The references a request always protects, in the order in which they are added. */
  function Basis(request: Request, original: Sha): seq<Ref>
    requires request.retain >= 0
  {
    [request.current] + [Ref(ORIGINAL, original)] + Retained(request)
  }

  /** With the pin, if that is installed. */
  function Protections(places: Places, request: Request, original: Sha): seq<Ref>
    requires request.retain >= 0
  {
    if Inspect(places, request.pinned).Some? && request.pinned != ORIGINAL
    then Basis(request, original) + [Ref(request.pinned, Inspect(places, request.pinned).value)]
    else Basis(request, original)
  }

  lemma TagsOfBoth(a: seq<Ref>, b: seq<Ref>)
    ensures Tags(a + b) == Tags(a) + Tags(b)
  {
    forall tag ensures tag in Tags(a + b) <==> tag in Tags(a) + Tags(b) {
      if tag in Tags(a) {
        var i :| 0 <= i < |a| && a[i].tag == tag;
        assert (a + b)[i].tag == tag;
      }
      if tag in Tags(b) {
        var i :| 0 <= i < |b| && b[i].tag == tag;
        assert (a + b)[|a| + i].tag == tag;
      }
    }
  }

  lemma TagsOfOne(ref: Ref)
    ensures Tags([ref]) == {ref.tag}
  {
    assert [ref][0].tag in Tags([ref]);
  }

  lemma ProtectedTags(places: Places, request: Request, original: Sha)
    requires request.retain >= 0 && Orderly(places) && (request.pinned != "" ==> ValidVersion(request.pinned))
    ensures Tags(Protections(places, request, original)) == Needed(places, request)
  {
    var first, second := [request.current], [Ref(ORIGINAL, original)];
    TagsOfOne(request.current);
    TagsOfOne(Ref(ORIGINAL, original));
    TagsOfBoth(first, second);
    TagsOfBoth(first + second, Retained(request));
    if request.pinned in places {
      assert Tidy(places, request.pinned);
      assert request.pinned != ORIGINAL;
      var pin := Ref(request.pinned, Inspect(places, request.pinned).value);
      TagsOfOne(pin);
      TagsOfBoth(Basis(request, original), [pin]);
    }
  }

  lemma ProtectionsStored(places: Places, request: Request, original: Sha)
    requires request.retain >= 0 && Inspect(places, ORIGINAL) == Some(original)
    ensures AllStored(places, Protections(places, request, original))
            <==> Stored(places, request.current) && AllStored(places, Retained(request))
  {
    var refs := Protections(places, request, original);
    if AllStored(places, refs) {
      assert refs[0] in refs;
      forall ref | ref in Retained(request) ensures Stored(places, ref) {
        assert ref in refs;
      }
    }
  }

  lemma PinIsInstalled(places: Places, installed: map<string, Sha>, pinned: string)
    requires Orderly(places) && installed.Keys == places.Keys - {ORIGINAL} && Bound(places, installed)
    ensures pinned in installed <==> Inspect(places, pinned).Some? && pinned != ORIGINAL
    ensures pinned in installed ==> pinned != "" && Inspect(places, pinned) == Some(installed[pinned])
  {
    if pinned in places {
      assert Tidy(places, pinned);
    }
  }

  /** The references of these tags, each once. */
  predicate Listed(refs: seq<Ref>, digests: map<string, string>, tags: set<string>)
  {
    && Tags(refs) == tags <= digests.Keys
    && (forall ref :: ref in refs ==> ref.tag in digests && ref.sha == digests[ref.tag])
    && (forall i, j :: 0 <= i < j < |refs| ==> refs[i].tag != refs[j].tag)
  }

  predicate InOrder(refs: seq<Ref>)
  {
    forall i, j :: 0 <= i < j < |refs| ==> Less(refs[i].tag, refs[j].tag)
  }

  /** No name in the set comes before this one. */
  predicate ComesFirst(tags: set<string>, tag: string)
  {
    tag in tags && forall other :: other in tags && other != tag ==> Less(tag, other)
  }

  lemma {:induction false} SomeTagIsLeast(tags: set<string>) returns (least: string)
    requires tags != {}
    ensures ComesFirst(tags, least)
    decreases |tags|
  {
    least :| least in tags;
    if tags != {least} {
      var first := SomeTagIsLeast(tags - {least});
      LessIsTotal(first, least);
      if Less(first, least) {
        least := first;
      } else {
        forall other | other in tags && other != least && other != first ensures Less(least, other) {
          LessIsTransitive(least, first, other);
        }
      }
    }
  }

  predicate AllBefore(refs: seq<Ref>, tags: set<string>)
  {
    forall ref, tag :: ref in refs && tag in tags ==> Less(ref.tag, tag)
  }

  lemma NoneBefore(tags: set<string>)
    ensures InOrder([]) && AllBefore([], tags)
  {}

  lemma FirstIsIn(tags: set<string>, tag: string)
    requires ComesFirst(tags, tag)
    ensures tag in tags
  {}

  lemma NextTag(refs: seq<Ref>, rest: set<string>, next: Ref)
    requires InOrder(refs) && AllBefore(refs, rest) && ComesFirst(rest, next.tag)
    ensures next.tag in rest && InOrder(refs + [next]) && AllBefore(refs + [next], rest - {next.tag})
  {
    assert forall i :: 0 <= i < |refs| ==> refs[i] in refs;
  }

  lemma FirstIsLeast(refs: seq<Ref>)
    requires refs != [] && InOrder(refs)
    ensures ComesFirst(Tags(refs), refs[0].tag)
  {
    assert refs[0].tag in Tags(refs);
  }

  lemma TagsOfFirst(refs: seq<Ref>)
    requires refs != [] && InOrder(refs)
    ensures Tags(refs[1..]) == Tags(refs) - {refs[0].tag}
  {
    forall ref | ref in refs[1..] ensures ref.tag != refs[0].tag {
      var i :| 0 <= i < |refs[1..]| && refs[1..][i] == ref;
      LessIsStrict(refs[0].tag);
      assert Less(refs[0].tag, refs[i + 1].tag);
    }
    assert refs == [refs[0]] + refs[1..];
  }

  lemma NoTags(refs: seq<Ref>)
    ensures Tags(refs) == {} <==> refs == []
  {
    assert refs != [] ==> refs[0].tag in Tags(refs);
  }

  /** Sorted lists of the same versions on a disk are the same. */
  lemma {:induction false} SortedIsUnique(places: Places, a: seq<Ref>, b: seq<Ref>)
    requires InOrder(a) && InOrder(b) && Tags(a) == Tags(b) && AllExact(places, a) && AllExact(places, b)
    ensures a == b
  {
    NoTags(a);
    NoTags(b);
    if a != [] {
      hide Less, Inspect;
      FirstIsLeast(a);
      FirstIsLeast(b);
      LessIsTotal(a[0].tag, b[0].tag);
      assert a[0] in a && b[0] in b;
      TagsOfFirst(a);
      TagsOfFirst(b);
      SortedIsUnique(places, a[1..], b[1..]);
      assert a == [a[0]] + a[1..] && b == [b[0]] + b[1..];
    }
  }

  /** The request and the disk determine the plan. */
  lemma PlanIsUnique(places: Places, request: Request, a: Plan, b: Plan)
    requires request.retain >= 0 && Faithful(places, request, a) && Faithful(places, request, b)
    requires InOrder(a.protected) && InOrder(a.delete) && InOrder(b.protected) && InOrder(b.delete)
    ensures a == b
  {
    hide InOrder, AllStored, AllExact;
    SortedIsUnique(places, a.protected, b.protected);
    SortedIsUnique(places, a.delete, b.delete);
  }

  lemma ListStep(refs: seq<Ref>, digests: map<string, string>, tags: set<string>, tag: string)
    requires Listed(refs, digests, tags) && tag in digests && tag !in tags
    ensures Listed(refs + [Ref(tag, digests[tag])], digests, tags + {tag})
  {
    TagsOfMore(refs, Ref(tag, digests[tag]));
    assert forall i :: 0 <= i < |refs| ==> refs[i].tag in Tags(refs);
  }

  lemma ListedIsStored(places: Places, refs: seq<Ref>, digests: map<string, string>, tags: set<string>)
    requires Listed(refs, digests, tags) && Bound(places, digests)
    ensures AllStored(places, refs) && AllBound(refs) && AllExact(places, refs)
  {
    forall ref | ref in refs ensures Stored(places, ref) && BoundRef(ref) && Inspect(places, ref.tag) == Some(ref.sha) {
      assert Inspect(places, ref.tag) == Some(ref.sha);
    }
  }

  lemma PlanIsFaithful(places: Places, request: Request, plan: Plan, protected: map<string, string>,
                       dropped: map<string, string>)
    requires Plannable(places, request)
    requires protected.Keys == Needed(places, request) && Bound(places, protected)
    requires dropped.Keys == places.Keys - {ORIGINAL} - protected.Keys && Bound(places, dropped)
    requires plan.current == Ref(request.current.tag, Lower(request.current.sha))
    requires Listed(plan.protected, protected, protected.Keys) && Listed(plan.delete, dropped, dropped.Keys)
    ensures Faithful(places, request, plan) && Applicable(places, plan)
  {
    hide Inspect, ValidDigest, Orderly, Tidy, ValidVersion;
    ListedIsStored(places, plan.protected, protected, protected.Keys);
    ListedIsStored(places, plan.delete, dropped, dropped.Keys);
    assert request.current.tag in Tags(plan.protected);
    var i :| 0 <= i < |plan.protected| && plan.protected[i].tag == request.current.tag;
    assert plan.protected[i] in plan.protected;
    LowerTwice(request.current.sha);
  }

  /** A reference that a plan may carry. */
  predicate BoundRef(ref: Ref)
  {
    ref.tag != "" && ValidPlace(ref.tag) && ValidDigest(ref.sha)
  }

  predicate AllBound(refs: seq<Ref>)
  {
    forall ref :: ref in refs ==> BoundRef(ref)
  }

  /** A plan that may be applied: consistent in itself, and true of the disk. */
  predicate Applicable(places: Places, plan: Plan)
  {
    && plan.current.tag != "" && plan.current.sha != ""
    && AllBound(plan.protected) && AllBound(plan.delete)
    && (exists ref :: ref in plan.protected && ref.tag == plan.current.tag && EqualFold(ref.sha, plan.current.sha))
    && Tags(plan.protected) !! Tags(plan.delete)
    && (forall i, j :: 0 <= i < j < |plan.delete| ==> plan.delete[i].tag != plan.delete[j].tag)
    && AllStored(places, plan.protected) && AllStored(places, plan.delete)
  }

  /** Nothing but these tags was touched, and nothing was added. */
  ghost predicate OnlyFrom(before: Places, after: Places, tags: set<string>)
  {
    && after.Keys <= before.Keys
    && (forall tag :: tag in before && tag !in tags ==> tag in after && after[tag] == before[tag])
  }

  /** The tag is free, reserved by an interrupted attempt, or taken by the very same file. */
  predicate Storable(places: Places, tag: string, file: string, digest: Sha)
  {
    ValidVersion(tag)
    && (tag in places ==> places[tag] == Folder([]) || places[tag] == Folder([Binary(file, digest)]))
  }

  class ToolStore {
    var places: Places
    /** A reliable file system injects no failure. */
    const reliable: bool

    constructor (places: Places, reliable: bool)
      ensures this.places == places && this.reliable == reliable
    {
      this.places, this.reliable := places, reliable;
    }

    /** The environment decides whether the next step fails. */
    method Hazard() returns (fails: bool)
      ensures reliable ==> !fails
    {
      fails := *;
      fails := fails && !reliable;
    }

    /** Read every version, refusing anything unexpected. */
    method InstalledVersions() returns (ok: bool, installed: map<string, Sha>)
      ensures ok <==> Orderly(places)
      ensures ok ==> installed.Keys == places.Keys - {ORIGINAL} && Bound(places, installed)
      // A version holds one file and nothing else, and its digest is listed.
      ensures ok ==> forall tag :: tag in installed ==>
                       exists file :: places[tag] == Folder([Binary(file, installed[tag])])
    {
      installed := map[];
      var rest := places.Keys;
      while rest != {}
        invariant rest <= places.Keys
        invariant forall tag :: tag in places && tag !in rest ==> Tidy(places, tag)
        invariant installed.Keys == places.Keys - rest - {ORIGINAL} && Bound(places, installed)
        decreases |rest|
      {
        var tag :| tag in rest;
        if !Tidy(places, tag) {
          return false, installed;
        }
        if tag != ORIGINAL {
          installed := installed[tag := Inspect(places, tag).value];
        }
        rest := rest - {tag};
      }
      forall tag | tag in installed ensures exists file :: places[tag] == Folder([Binary(file, installed[tag])]) {
        assert places[tag] == Folder([Binary(places[tag].items[0].file, installed[tag])]);
      }
      ok := true;
    }

    /** Compare what is on disk with every digest in the map. */
    method VerifyAll(digests: map<string, string>) returns (ok: bool)
      ensures ok <==> Bound(places, digests)
    {
      var rest := digests.Keys;
      while rest != {}
        invariant rest <= digests.Keys
        invariant forall tag :: tag in digests && tag !in rest ==> Inspect(places, tag) == Some(digests[tag])
        decreases |rest|
      {
        var tag :| tag in rest;
        if Inspect(places, tag) != Some(digests[tag]) {
          return false;
        }
        rest := rest - {tag};
      }
      ok := true;
    }

    /** Collect everything the request protects. */
    method Protect(request: Request, original: Sha, installed: map<string, Sha>)
      returns (ok: bool, protected: map<string, string>)
      requires request.retain >= 0 && (request.pinned != "" ==> ValidVersion(request.pinned))
      requires Orderly(places) && installed.Keys == places.Keys - {ORIGINAL} && Bound(places, installed)
      ensures ok ==> Collected(protected, Protections(places, request, original))
      ensures !ok ==> !AllStored(places, Protections(places, request, original))
    {
      hide Collected, Stored, Basis, Orderly, Bound, ValidVersion;
      ok, protected := ProtectBasis(request, original);
      PinIsInstalled(places, installed, request.pinned);
      ghost var basis, refs := Basis(request, original), Protections(places, request, original);
      if request.pinned != "" && request.pinned in installed {
        var pin := Ref(request.pinned, installed[request.pinned]);
        assert refs == basis + [pin] && refs[..|basis|] == basis && refs[..|refs|] == refs;
        if ok {
          ok, protected := AddNext(protected, pin, refs, |basis|);
        } else {
          assert forall ref :: ref in basis ==> ref in refs;
        }
      }
    }

    method ProtectBasis(request: Request, original: Sha) returns (ok: bool, protected: map<string, string>)
      requires request.retain >= 0
      ensures ok ==> Collected(protected, Basis(request, original))
      ensures !ok ==> !AllStored(places, Basis(request, original))
    {
      ghost var refs := Basis(request, original);
      ok, protected := AddNext(map[], request.current, refs, 0);
      if !ok {
        return;
      }
      ok, protected := AddNext(protected, Ref(ORIGINAL, original), refs, 1);
      if !ok {
        return;
      }
      var count := if request.retain < |request.ancestors| then request.retain else |request.ancestors|;
      for i := 0 to count
        invariant Collected(protected, refs[..i + 2])
      {
        ok, protected := AddNext(protected, request.ancestors[i], refs, i + 2);
        if !ok {
          return;
        }
      }
      assert refs[..|refs|] == refs;
      ok := true;
    }

    /** List the references of a map, sorted by their tags. */
    method ListRefs(digests: map<string, string>) returns (refs: seq<Ref>)
      ensures Listed(refs, digests, digests.Keys) && InOrder(refs)
    {
      hide ComesFirst, InOrder, AllBefore;
      refs := [];
      var rest := digests.Keys;
      NoneBefore(rest);
      while rest != {}
        invariant rest <= digests.Keys && Listed(refs, digests, digests.Keys - rest)
        invariant InOrder(refs) && AllBefore(refs, rest)
        decreases |rest|
      {
        var least := SomeTagIsLeast(rest);
        var tag :| ComesFirst(rest, tag);
        FirstIsIn(rest, tag);
        NextTag(refs, rest, Ref(tag, digests[tag]));
        ListStep(refs, digests, digests.Keys - rest, tag);
        assert digests.Keys - rest + {tag} == digests.Keys - (rest - {tag});
        refs := refs + [Ref(tag, digests[tag])];
        rest := rest - {tag};
      }
    }

    /** Read what is installed, and check that everything to protect is there. */
    method Secure(request: Request) returns (ok: bool, installed: map<string, Sha>, protected: map<string, string>)
      ensures ok <==> Plannable(places, request)
      ensures ok ==> installed.Keys == places.Keys - {ORIGINAL} && Bound(places, installed)
      ensures ok ==> protected.Keys == Needed(places, request) && Bound(places, protected)
    {
      protected := map[];
      ok, installed := InstalledVersions();
      var original := Inspect(places, ORIGINAL);
      if !ok || original.None? || request.retain < 0 || (request.pinned != "" && !ValidVersion(request.pinned)) {
        return false, installed, protected;
      }
      ghost var refs := Protections(places, request, original.value);
      ProtectionsStored(places, request, original.value);
      ok, protected := Protect(request, original.value, installed);
      if !ok {
        return;
      }
      CollectedIsBound(places, protected, refs);
      ProtectedTags(places, request, original.value);
      ok := VerifyAll(protected);
    }

    /** Plan which versions to delete. */
    method PlanPrune(request: Request) returns (ok: bool, plan: Plan)
      ensures ok <==> Plannable(places, request)
      ensures ok ==> Faithful(places, request, plan) && Applicable(places, plan)
                     && InOrder(plan.protected) && InOrder(plan.delete)
      // Protected are the active version, the original, the first ancestors, and the pin when it is installed.
      ensures ok ==>
                forall tag :: tag in places ==>
                  (tag in Tags(plan.protected) <==>
                   tag in {request.current.tag, ORIGINAL, request.pinned}
                   || exists i :: 0 <= i < |request.ancestors| && i < request.retain && request.ancestors[i].tag == tag)
    {
      plan := Plan(request.current, [], []);
      var installed, protected;
      ok, installed, protected := Secure(request);
      if !ok {
        return;
      }
      var dropped: map<string, string> := map tag | tag in installed && tag !in protected :: installed[tag];
      var kept := ListRefs(protected);
      var delete := ListRefs(dropped);
      plan := Plan(Ref(request.current.tag, Lower(request.current.sha)), kept, delete);
      PlanIsFaithful(places, request, plan, protected, dropped);
      WhatIsNeeded(places, request);
    }

    method AddNext(protected: map<string, string>, ref: Ref, ghost refs: seq<Ref>, ghost n: nat)
      returns (ok: bool, next: map<string, string>)
      requires n < |refs| && ref == refs[n] && Collected(protected, refs[..n])
      ensures ok ==> Collected(next, refs[..n + 1])
      ensures !ok ==> !AllStored(places, refs)
    {
      assert refs[..n + 1] == refs[..n] + [ref];
      ok, next := AddProtected(places, protected, ref, refs[..n]);
      assert AllStored(places, refs) ==> AllStored(places, refs[..n + 1]);
    }

    /** Check every reference of a plan before the first removal. */
    method Revalidate(plan: Plan) returns (ok: bool)
      ensures ok <==> Applicable(places, plan)
    {
      var kept := {};
      for i := 0 to |plan.protected|
        invariant kept == Tags(plan.protected[..i])
        invariant AllStored(places, plan.protected[..i]) && AllBound(plan.protected[..i])
      {
        TagsOfMore(plan.protected[..i], plan.protected[i]);
        assert plan.protected[..i + 1] == plan.protected[..i] + [plan.protected[i]];
        if !BoundRef(plan.protected[i]) || !Stored(places, plan.protected[i]) {
          return false;
        }
        kept := kept + {plan.protected[i].tag};
      }
      assert plan.protected[..|plan.protected|] == plan.protected;
      ok := CheckDeletions(plan, kept);
      if !ok || plan.current.tag == "" || plan.current.sha == "" {
        return false;
      }
      ok := exists ref :: ref in plan.protected && ref.tag == plan.current.tag && EqualFold(ref.sha, plan.current.sha);
    }

    method CheckDeletions(plan: Plan, kept: set<string>) returns (ok: bool)
      requires kept == Tags(plan.protected)
      ensures ok <==> && AllStored(places, plan.delete) && AllBound(plan.delete)
                      && Tags(plan.protected) !! Tags(plan.delete)
                      && (forall i, j :: 0 <= i < j < |plan.delete| ==> plan.delete[i].tag != plan.delete[j].tag)
    {
      var seen := {};
      for i := 0 to |plan.delete|
        invariant seen == Tags(plan.delete[..i]) && kept !! seen
        invariant AllStored(places, plan.delete[..i]) && AllBound(plan.delete[..i])
        invariant forall j, k :: 0 <= j < k < i ==> plan.delete[j].tag != plan.delete[k].tag
      {
        var ref := plan.delete[i];
        TagsOfMore(plan.delete[..i], ref);
        assert plan.delete[..i + 1] == plan.delete[..i] + [ref];
        assert ref.tag in Tags(plan.delete);
        if !BoundRef(ref) || !Stored(places, ref) || ref.tag in kept || ref.tag in seen {
          return false;
        }
        assert forall j :: 0 <= j < i ==> plan.delete[..i][j].tag in seen;
        seen := seen + {ref.tag};
      }
      assert plan.delete[..|plan.delete|] == plan.delete;
      ok := true;
    }

    /** Remove one version directory; a failure may leave a part of it. */
    method RemoveAll(tag: string) returns (ok: bool)
      modifies this
      ensures OnlyFrom(old(places), places, {tag})
      ensures ok ==> places == old(places) - {tag}
      ensures reliable ==> ok
    {
      var fails := Hazard();
      if fails {
        var left: Place := *;
        if tag in places {
          places := places[tag := left];
        }
        return false;
      }
      places := places - {tag};
      ok := true;
    }

    /** Delete the listed versions, each only after all of them have been checked. */
    method ApplyPrunePlan(plan: Plan) returns (ok: bool)
      modifies this
      ensures !Applicable(old(places), plan) ==> !ok && places == old(places)
      ensures OnlyFrom(old(places), places, Tags(plan.delete))
      ensures ok ==> places == old(places) - Tags(plan.delete)
      ensures reliable && Applicable(old(places), plan) ==> ok
    {
      ok := Revalidate(plan);
      if !ok {
        return;
      }
      for i := 0 to |plan.delete|
        invariant OnlyFrom(old(places), places, Tags(plan.delete))
        invariant places == old(places) - Tags(plan.delete[..i])
      {
        assert plan.delete[i].tag in Tags(plan.delete);
        TagsOfMore(plan.delete[..i], plan.delete[i]);
        assert plan.delete[..i + 1] == plan.delete[..i] + [plan.delete[i]];
        ok := RemoveAll(plan.delete[i].tag);
        if !ok {
          return;
        }
      }
      assert plan.delete[..|plan.delete|] == plan.delete;
      ok := true;
    }

    /** Prune with regard to the lineage. Nothing that is needed is ever touched, not even when a
        removal fails half way, and nothing at all when something needed is missing or altered. */
    method PruneHistory(request: Request) returns (ok: bool)
      modifies this
      ensures !Plannable(old(places), request) ==> !ok && places == old(places)
      ensures places.Keys <= old(places).Keys
      ensures request.retain >= 0 ==>
                forall tag :: tag in Needed(old(places), request) && tag in old(places) ==>
                  tag in places && places[tag] == old(places)[tag]
      ensures ok ==> request.retain >= 0 && places.Keys == old(places).Keys * Needed(old(places), request)
      // What stays is the active version, the original, the first ancestors, and the pin.
      ensures ok ==>
                forall tag :: tag in old(places) ==>
                  (tag in places <==>
                   tag in {request.current.tag, ORIGINAL, request.pinned}
                   || exists i :: 0 <= i < |request.ancestors| && i < request.retain && request.ancestors[i].tag == tag)
      ensures reliable && Plannable(old(places), request) ==> ok
    {
      var plan;
      ok, plan := PlanPrune(request);
      if ok {
        WhatIsNeeded(places, request);
        ok := ApplyPrunePlan(plan);
      }
    }

    /** Store a version under a new tag. What is stored is never replaced: the same content is
        confirmed, other content is refused, and an interrupted attempt leaves an empty directory. */
    method Put(tag: string, file: string, digest: Sha) returns (ok: bool)
      modifies this
      ensures ok ==> Storable(old(places), tag, file, digest)
                     && places == old(places)[tag := Folder([Binary(file, digest)])]
      ensures reliable && Storable(old(places), tag, file, digest) ==> ok
      // Without faults only another content or an invalid tag is refused.
      ensures reliable && ValidVersion(tag)
              && (tag in old(places) ==> old(places)[tag] == Folder([]) || old(places)[tag] == Folder([Binary(file, digest)])) ==>
                ok
      ensures forall other :: other != tag ==>
                (other in places <==> other in old(places)) && (other in places ==> places[other] == old(places)[other])
      ensures tag in old(places) && old(places)[tag] != Folder([]) ==> places == old(places)
    {
      if !ValidVersion(tag) {
        return false;
      }
      if tag in places {
        match places[tag] {
          case Plain =>
            return false;
          case Folder(items) =>
            if |items| != 0 {
              return |items| == 1 && items[0] == Binary(file, digest);
            }
        }
      }
      var fails := Hazard();
      if fails {
        return false;
      }
      places := places[tag := Folder([])];
      fails := Hazard();
      if fails {
        return false;
      }
      places := places[tag := Folder([Binary(file, digest)])];
      ok := true;
    }
  }
}
