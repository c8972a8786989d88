/** Choosing the release asset for a platform. The regular expressions and suffix tests of the
    original are parameters: what is proved holds for any of them. */
module AssetPick {

  /** The tests on one asset name, and the target platform. */
  datatype Rules = Rules(
    blacklisted: string -> bool,
    unsupported: string -> bool,
    sourceLike: string -> bool,
    container: string -> bool,
    limit: string -> string,
    checksum: string -> bool,
    os: string -> bool,
    priority: string -> bool,
    arch: string -> bool,
    arm64: string -> bool,
    amd64: string -> bool,
    bits32: string -> bool,
    musl: string -> bool,
    tiers: seq<string -> bool>,
    darwinArm: bool,
    bits64: bool,
    linux: bool)

  /** The lists that the original sorts before use are kept as sets. */
  datatype Outcome = Chosen(name: string, fallback: set<string>, steps: seq<Step>) | Refused

  /** The tie-breaking steps that narrowed the choice. */
  datatype Step = ByFilter | RosettaFallback | Without32Bit | ArchivePreference | MuslPreference

  datatype Verdict = Direct(name: string) | Several(names: seq<string>)

  // ---- names ----

  /** The last element of a slash-separated path. */
  function Base(s: string): string
  {
    if s == "" then "."
    else if s[|s| - 1] == '/' then (if AllSlashes(s) then "/" else Base(s[..|s| - 1]))
    else AfterSlash(s)
  }

  predicate AllSlashes(s: string)
  {
    forall c :: c in s ==> c == '/'
  }

  function AfterSlash(s: string): string
  {
    if s == "" || s[|s| - 1] == '/' then "" else AfterSlash(s[..|s| - 1]) + [s[|s| - 1]]
  }

  /** A name without slashes is its own base. */
  lemma {:induction false} PlainBase(s: string)
    requires s != "" && '/' !in s
    ensures Base(s) == s
  {
    assert s[|s| - 1] in s;
    PlainAfterSlash(s);
  }

  lemma {:induction false} PlainAfterSlash(s: string)
    requires '/' !in s
    ensures AfterSlash(s) == s
  {
    if s != "" {
      var front := s[..|s| - 1];
      assert s == front + [s[|s| - 1]] && s[|s| - 1] in s;
      PlainAfterSlash(front);
    }
  }

  /** The base has no slash in it, and only a directory comes before it and only slashes after it. */
  lemma {:induction false} BaseIsLast(s: string) returns (before: string, after: string)
    requires !AllSlashes(s)
    ensures Base(s) != "" && '/' !in Base(s) && s == before + Base(s) + after
    ensures before == "" || before[|before| - 1] == '/'
    ensures AllSlashes(after)
  {
    var front, last := s[..|s| - 1], s[|s| - 1];
    assert s == front + [last];
    if last == '/' {
      before, after := BaseIsLast(front);
      after := after + [last];
      assert s == before + Base(s) + after;
    } else {
      before := AfterSlashIsLast(s);
      after := "";
      assert s == before + Base(s) + after;
    }
  }

  lemma {:induction false} AfterSlashIsLast(s: string) returns (before: string)
    ensures '/' !in AfterSlash(s) && s == before + AfterSlash(s)
    ensures before == "" || before[|before| - 1] == '/'
  {
    if s == "" || s[|s| - 1] == '/' {
      before := s;
      assert s == before + "";
    } else {
      var front := s[..|s| - 1];
      before := AfterSlashIsLast(front);
      assert s == front + [s[|s| - 1]] == before + AfterSlash(s);
    }
  }

  predicate Contains(s: string, part: string)
  {
    part <= s || (s != "" && Contains(s[1..], part))
  }

  lemma {:induction false} ContainsExactly(s: string, part: string)
    ensures Contains(s, part) <==> exists i :: 0 <= i <= |s| && part <= s[i..]
  {
    assert s[0..] == s;
    if s != "" {
      ContainsExactly(s[1..], part);
      assert forall i :: 0 <= i < |s| ==> s[1..][i..] == s[i + 1..];
      if i :| 0 < i <= |s| && part <= s[i..] {
        assert s[i..] == s[1..][i - 1..];
      }
      if i :| 0 <= i <= |s[1..]| && part <= s[1..][i..] {
        assert s[1..][i..] == s[i + 1..];
      }
    }
  }

  // ---- filters ----

  function Filter(names: seq<string>, test: string -> bool): seq<string>
  {
    if names == [] then []
    else Filter(names[..|names| - 1], test) + if test(names[|names| - 1]) then [names[|names| - 1]] else []
  }

  lemma {:induction false} FilterIn(names: seq<string>, test: string -> bool)
    ensures forall a :: a in Filter(names, test) <==> a in names && test(a)
  {
    if names != [] {
      FilterIn(names[..|names| - 1], test);
      assert names == names[..|names| - 1] + [names[|names| - 1]];
    }
  }

  lemma FilterMore(names: seq<string>, a: string, test: string -> bool)
    ensures Filter(names + [a], test) == Filter(names, test) + if test(a) then [a] else []
  {
    assert (names + [a])[..|names|] == names;
  }

  /** Two lists of the same names. */
  ghost predicate Same(a: seq<string>, b: seq<string>)
  {
    multiset(a) == multiset(b)
  }

  lemma {:induction false} FilterCounts(names: seq<string>, test: string -> bool, a: string)
    ensures multiset(Filter(names, test))[a] == if test(a) then multiset(names)[a] else 0
  {
    if names != [] {
      var front, last := names[..|names| - 1], names[|names| - 1];
      assert names == front + [last];
      FilterCounts(front, test, a);
      FilterMore(front, last, test);
    }
  }

  lemma FilterSame(a: seq<string>, b: seq<string>, test: string -> bool)
    requires Same(a, b)
    ensures Same(Filter(a, test), Filter(b, test)) && |Filter(a, test)| == |Filter(b, test)|
    ensures |Filter(a, test)| == 1 ==> Filter(a, test) == Filter(b, test)
  {
    forall x ensures multiset(Filter(a, test))[x] == multiset(Filter(b, test))[x] {
      FilterCounts(a, test, x);
      FilterCounts(b, test, x);
    }
    SameFacts(Filter(a, test), Filter(b, test));
  }

  lemma SameFacts(a: seq<string>, b: seq<string>)
    requires Same(a, b)
    ensures |a| == |b| && (|a| == 1 ==> a == b) && forall x :: x in a <==> x in b
  {
    assert |a| == |multiset(a)| == |multiset(b)| == |b|;
    forall x ensures x in a <==> x in b {
      assert x in a <==> x in multiset(a);
      assert x in b <==> x in multiset(b);
    }
    if |a| == 1 {
      assert a[0] in b;
    }
  }

  // ---- what is chosen, as filters ----

  function PreferredTest(rules: Rules): string -> bool
  {
    (a: string) => !rules.blacklisted(a) && !rules.unsupported(a) && !rules.sourceLike(a) && !rules.container(a)
  }

  function DemotedTest(rules: Rules): string -> bool
  {
    (a: string) => !rules.blacklisted(a) && (rules.unsupported(a) || rules.sourceLike(a) || rules.container(a))
  }

  /** Demoted, but for another reason than being a source archive, and for the target platform. */
  function EligibleTest(rules: Rules): string -> bool
  {
    (a: string) => DemotedTest(rules)(a) && (rules.unsupported(a) || !rules.sourceLike(a)) && rules.os(a) && rules.arch(a)
  }

  function Pool(rules: Rules, assets: seq<string>): seq<string>
  {
    var preferred := Filter(assets, PreferredTest(rules));
    if preferred != [] then preferred else Filter(assets, EligibleTest(rules))
  }

  /** Why a demoted asset is second choice. */
  function Limit(rules: Rules, a: string): string
  {
    (if !rules.unsupported(a) && rules.sourceLike(a) then "source" else rules.limit(a)) + "-fallback"
  }

  function Fallback(rules: Rules, assets: seq<string>): set<string>
  {
    if Filter(assets, PreferredTest(rules)) != [] then {}
    else set a | a in Filter(assets, DemotedTest(rules)) :: Limit(rules, a)
  }

  function BaseTest(needle: string): string -> bool
  {
    (a: string) => Base(a) == needle
  }

  function NeedleTest(needle: string, anti: bool): string -> bool
  {
    (a: string) => Contains(Base(a), needle) != anti
  }

  function One(names: seq<string>): Verdict
  {
    if |names| == 1 then Direct(names[0]) else Several(names)
  }

  function ByAsset(names: seq<string>, needle: string, anti: bool): Verdict
  {
    var exact := Filter(names, BaseTest(needle));
    if !anti && exact != [] then Direct(exact[0]) else One(Filter(names, NeedleTest(needle, anti)))
  }

  function UsableTest(rules: Rules): string -> bool { (a: string) => !rules.checksum(a) }
  function FirstTest(rules: Rules): string -> bool { (a: string) => !rules.checksum(a) && rules.priority(a) }
  function MatchTest(rules: Rules): string -> bool { (a: string) => !rules.checksum(a) && rules.os(a) && rules.arch(a) }
  function OsTest(rules: Rules): string -> bool { (a: string) => !rules.checksum(a) && rules.os(a) }

  function BySystem(rules: Rules, names: seq<string>): Verdict
  {
    var first, matches := Filter(names, FirstTest(rules)), Filter(names, MatchTest(rules));
    var candidates := Filter(names, OsTest(rules));
    if first != [] then One(first)
    else if matches != [] then One(matches)
    else if candidates != [] then One(candidates)
    else One(Filter(names, UsableTest(rules)))
  }

  datatype Narrowed = Narrowed(names: seq<string>, steps: seq<Step>)

  function PreferArm(rules: Rules, n: Narrowed): Narrowed
  {
    var arm, amd := Filter(n.names, rules.arm64), Filter(n.names, rules.amd64);
    if !rules.darwinArm then n
    else if arm != [] then Narrowed(arm, n.steps)
    else if amd != [] then Narrowed(amd, n.steps + [RosettaFallback])
    else n
  }

  function WideTest(rules: Rules): string -> bool { (a: string) => !rules.bits32(a) }

  function Reduced(n: Narrowed, to: seq<string>, step: Step): Narrowed
  {
    Narrowed(to, if |to| < |n.names| then n.steps + [step] else n.steps)
  }

  function Drop32(rules: Rules, n: Narrowed): Narrowed
  {
    var wide := Filter(n.names, WideTest(rules));
    if rules.bits64 && wide != [] then Reduced(n, wide, Without32Bit) else n
  }

  function PreferTier(tiers: seq<string -> bool>, n: Narrowed): Narrowed
  {
    if tiers == [] then n
    else if Filter(n.names, tiers[0]) != [] then Reduced(n, Filter(n.names, tiers[0]), ArchivePreference)
    else PreferTier(tiers[1..], n)
  }

  function PreferMusl(rules: Rules, n: Narrowed): Narrowed
  {
    var musl := Filter(n.names, rules.musl);
    if rules.linux && 0 < |musl| < |n.names| then Narrowed(musl, n.steps + [MuslPreference]) else n
  }

  function Tiebreak(rules: Rules, names: seq<string>): Narrowed
  {
    PreferMusl(rules, PreferTier(rules.tiers, Drop32(rules, PreferArm(rules, Narrowed(names, [])))))
  }

  /** The system match and the tiebreaks on what is left of the pool. */
  function Rank(rules: Rules, names: seq<string>, fallback: set<string>): Outcome
  {
    match BySystem(rules, names)
    case Direct(name) => if name != "" then Chosen(name, fallback, []) else Refused
    case Several(rest) =>
      if rest == [] then Refused
      else
        var narrowed := Tiebreak(rules, rest);
        if |narrowed.names| == 1 then Chosen(narrowed.names[0], fallback, narrowed.steps) else Refused
  }

  function Needle(filter: string): string
  {
    if Inverted(filter) then filter[1..] else filter
  }

  predicate Inverted(filter: string)
  {
    filter != "" && filter[0] == '^'
  }

  /** What remains after the asset filter, or the filter's own choice. */
  function Narrow(rules: Rules, pool: seq<string>, fallback: set<string>, filter: string): Outcome
  {
    match ByAsset(pool, Needle(filter), Inverted(filter))
    case Direct(name) => if name != "" then Chosen(name, fallback, [ByFilter]) else Refused
    case Several(rest) => if rest == [] then Refused else Rank(rules, rest, fallback)
  }

  function Choice(rules: Rules, assets: seq<string>, filter: string): Outcome
  {
    var pool, fallback := Pool(rules, assets), Fallback(rules, assets);
    if pool == [] then Refused
    else if filter == "" then Rank(rules, pool, fallback)
    else Narrow(rules, pool, fallback, filter)
  }

  // ---- what a choice is ----

  ghost predicate Within(a: seq<string>, b: seq<string>)
  {
    forall x :: x in a ==> x in b
  }

  lemma FilterWithin(names: seq<string>, test: string -> bool)
    ensures Within(Filter(names, test), names)
  {
    FilterIn(names, test);
  }

  lemma {:induction false} TierWithin(tiers: seq<string -> bool>, n: Narrowed)
    ensures Within(PreferTier(tiers, n).names, n.names)
  {
    if tiers != [] {
      FilterWithin(n.names, tiers[0]);
      TierWithin(tiers[1..], n);
    }
  }

  lemma TiebreakWithin(rules: Rules, names: seq<string>)
    ensures Within(Tiebreak(rules, names).names, names)
  {
    var n := PreferArm(rules, Narrowed(names, []));
    assert Within(n.names, names) by {
      FilterWithin(names, rules.arm64);
      FilterWithin(names, rules.amd64);
    }
    var m := Drop32(rules, n);
    assert Within(m.names, n.names) by {
      FilterWithin(n.names, WideTest(rules));
    }
    TierWithin(rules.tiers, m);
    FilterWithin(PreferTier(rules.tiers, m).names, rules.musl);
  }

  lemma {:induction false} FilterShrinks(names: seq<string>, test: string -> bool)
    ensures |Filter(names, test)| <= |names|
  {
    if names != [] {
      FilterShrinks(names[..|names| - 1], test);
    }
  }

  /** From `a` to `b` candidates were dropped but not all of them, and every note but that of the Rosetta
      fallback says so. */
  predicate Narrows(a: Narrowed, b: Narrowed)
  {
    && |b.names| <= |a.names| && (a.names != [] ==> b.names != [])
    && a.steps <= b.steps
    && (forall step :: step in b.steps[|a.steps|..] && step != RosettaFallback ==> |b.names| < |a.names|)
  }

  lemma NarrowsTwice(a: Narrowed, b: Narrowed, c: Narrowed)
    requires Narrows(a, b) && Narrows(b, c)
    ensures Narrows(a, c)
  {
    assert c.steps[|a.steps|..] == b.steps[|a.steps|..] + c.steps[|b.steps|..];
  }

  lemma ReducedNarrows(n: Narrowed, test: string -> bool, step: Step)
    requires Filter(n.names, test) != []
    ensures Narrows(n, Reduced(n, Filter(n.names, test), step))
    ensures step != RosettaFallback ==>
              (RosettaFallback in Reduced(n, Filter(n.names, test), step).steps <==> RosettaFallback in n.steps)
  {
    FilterShrinks(n.names, test);
  }

  lemma {:induction false} TierNarrows(tiers: seq<string -> bool>, n: Narrowed)
    ensures Narrows(n, PreferTier(tiers, n))
    ensures RosettaFallback in PreferTier(tiers, n).steps <==> RosettaFallback in n.steps
  {
    if tiers != [] {
      if Filter(n.names, tiers[0]) != [] {
        ReducedNarrows(n, tiers[0], ArchivePreference);
      } else {
        TierNarrows(tiers[1..], n);
      }
    }
  }

  /** The narrowing keeps at least one candidate, and its notes are honest. */
  lemma TiebreakNarrows(rules: Rules, names: seq<string>)
    ensures Narrows(Narrowed(names, []), Tiebreak(rules, names))
    ensures RosettaFallback in Tiebreak(rules, names).steps <==>
            rules.darwinArm && Filter(names, rules.arm64) == [] && Filter(names, rules.amd64) != []
  {
    var start := Narrowed(names, []);
    var arm := PreferArm(rules, start);
    FilterShrinks(names, rules.arm64);
    FilterShrinks(names, rules.amd64);
    assert Narrows(start, arm);
    var wide := Drop32(rules, arm);
    if Filter(arm.names, WideTest(rules)) != [] {
      ReducedNarrows(arm, WideTest(rules), Without32Bit);
    }
    NarrowsTwice(start, arm, wide);
    var tier := PreferTier(rules.tiers, wide);
    TierNarrows(rules.tiers, wide);
    NarrowsTwice(start, wide, tier);
    FilterShrinks(tier.names, rules.musl);
    NarrowsTwice(start, tier, PreferMusl(rules, tier));
  }

  function NamesOf(v: Verdict): seq<string>
  {
    match v
    case Direct(name) => [name]
    case Several(names) => names
  }

  lemma BySystemWithin(rules: Rules, names: seq<string>)
    ensures Within(NamesOf(BySystem(rules, names)), names)
  {
    FilterWithin(names, FirstTest(rules));
    FilterWithin(names, MatchTest(rules));
    FilterWithin(names, OsTest(rules));
    FilterWithin(names, UsableTest(rules));
  }

  lemma RankWithin(rules: Rules, names: seq<string>, fallback: set<string>)
    ensures Rank(rules, names, fallback).Chosen? ==>
              Rank(rules, names, fallback).name in names && Rank(rules, names, fallback).fallback == fallback
  {
    var verdict := BySystem(rules, names);
    BySystemWithin(rules, names);
    if verdict.Several? {
      TiebreakWithin(rules, verdict.names);
    } else {
      assert verdict.name in NamesOf(verdict);
    }
  }

  lemma ByAssetWithin(names: seq<string>, needle: string, anti: bool)
    ensures Within(NamesOf(ByAsset(names, needle, anti)), names)
  {
    FilterWithin(names, BaseTest(needle));
    FilterWithin(names, NeedleTest(needle, anti));
  }

  lemma ChoiceInPool(rules: Rules, assets: seq<string>, filter: string)
    requires Choice(rules, assets, filter).Chosen?
    ensures Choice(rules, assets, filter).name in Pool(rules, assets)
    ensures Choice(rules, assets, filter).fallback == Fallback(rules, assets)
  {
    var pool := Pool(rules, assets);
    if filter == "" {
      RankWithin(rules, pool, Fallback(rules, assets));
    } else {
      var verdict := ByAsset(pool, Needle(filter), Inverted(filter));
      ByAssetWithin(pool, Needle(filter), Inverted(filter));
      if verdict.Several? {
        RankWithin(rules, verdict.names, Fallback(rules, assets));
      } else {
        assert verdict.name in NamesOf(verdict);
      }
    }
  }

  /** A choice comes from the pool: a preferred asset whenever there is one; else a demoted asset
      for the target platform that was not demoted as a source archive, and with a warning. */
  lemma ChoiceIsInstallable(rules: Rules, assets: seq<string>, filter: string)
    requires Choice(rules, assets, filter).Chosen?
    ensures var chosen := Choice(rules, assets, filter);
            && chosen.name in assets && !rules.blacklisted(chosen.name)
            && ((exists a :: a in assets && PreferredTest(rules)(a)) ==>
                  PreferredTest(rules)(chosen.name) && chosen.fallback == {})
            && (!PreferredTest(rules)(chosen.name) ==>
                  && rules.os(chosen.name) && rules.arch(chosen.name)
                  && (rules.unsupported(chosen.name) || !rules.sourceLike(chosen.name))
                  && Limit(rules, chosen.name) in chosen.fallback)
  {
    ChoiceInPool(rules, assets, filter);
    PoolIsInstallable(rules, assets, Choice(rules, assets, filter).name);
  }

  lemma PoolIsInstallable(rules: Rules, assets: seq<string>, name: string)
    requires name in Pool(rules, assets)
    ensures name in assets && !rules.blacklisted(name)
    ensures (exists a :: a in assets && PreferredTest(rules)(a)) ==>
              PreferredTest(rules)(name) && Fallback(rules, assets) == {}
    ensures !PreferredTest(rules)(name) ==>
              && rules.os(name) && rules.arch(name) && (rules.unsupported(name) || !rules.sourceLike(name))
              && Limit(rules, name) in Fallback(rules, assets)
  {
    FilterIn(assets, PreferredTest(rules));
    FilterIn(assets, EligibleTest(rules));
    FilterIn(assets, DemotedTest(rules));
    if Filter(assets, PreferredTest(rules)) == [] {
      assert DemotedTest(rules)(name) && name in Filter(assets, DemotedTest(rules));
    }
  }

  // ---- the choice is the best ----

  /** How an asset fits the system: with priority, in system and architecture, in the system, or not at all. */
  function Class(rules: Rules, a: string): nat
  {
    if rules.priority(a) then 0 else if rules.os(a) && rules.arch(a) then 1 else if rules.os(a) then 2 else 3
  }

  /** On a machine that runs both: for its own processor, for the other one, for neither. */
  function Chip(rules: Rules, a: string): nat
  {
    if !rules.darwinArm || rules.arm64(a) then 0 else if rules.amd64(a) then 1 else 2
  }

  function Width(rules: Rules, a: string): nat { if rules.bits64 && rules.bits32(a) then 1 else 0 }

  function Format(tiers: seq<string -> bool>, a: string): nat
  {
    if tiers == [] || tiers[0](a) then 0 else 1 + Format(tiers[1..], a)
  }

  function Libc(rules: Rules, a: string): nat { if rules.linux && !rules.musl(a) then 1 else 0 }

  /** Before another one in the tie-breaks: by processor, then width, then format, then libc. */
  predicate Precedes(rules: Rules, a: string, b: string)
  {
    || Chip(rules, a) < Chip(rules, b)
    || (Chip(rules, a) == Chip(rules, b)
        && (|| Width(rules, a) < Width(rules, b)
            || (Width(rules, a) == Width(rules, b)
                && (|| Format(rules.tiers, a) < Format(rules.tiers, b)
                    || (Format(rules.tiers, a) == Format(rules.tiers, b) && Libc(rules, a) < Libc(rules, b))))))
  }

  /** Better than another one: by system, then in the tie-breaks. */
  predicate Beats(rules: Rules, a: string, b: string)
  {
    Class(rules, a) < Class(rules, b) || (Class(rules, a) == Class(rules, b) && Precedes(rules, a, b))
  }

  ghost predicate Minimal(names: seq<string>, f: string -> nat, a: string)
  {
    a in names && forall b :: b in names ==> f(a) <= f(b)
  }

  /** A part of a list, with all copies of what is in it. */
  ghost predicate PartOf(b: seq<string>, a: seq<string>)
  {
    forall x :: x in b ==> multiset(b)[x] == multiset(a)[x]
  }

  lemma PartOfPart(c: seq<string>, b: seq<string>, a: seq<string>)
    requires PartOf(c, b) && PartOf(b, a)
    ensures PartOf(c, a)
  {
    forall x | x in c ensures multiset(c)[x] == multiset(a)[x] {
      assert x in multiset(b);
    }
  }

  lemma FilterIsPart(names: seq<string>, test: string -> bool)
    ensures PartOf(Filter(names, test), names) && forall a :: a in Filter(names, test) <==> a in names && test(a)
  {
    FilterIn(names, test);
    forall x | x in Filter(names, test) ensures multiset(Filter(names, test))[x] == multiset(names)[x] {
      FilterCounts(names, test, x);
    }
  }

  lemma NoneIsEmpty(names: seq<string>)
    ensures names == [] <==> forall a :: a !in names
  {
    assert names != [] ==> names[0] in names;
  }

  lemma ArmIsMinimal(rules: Rules, n: Narrowed)
    ensures PartOf(PreferArm(rules, n).names, n.names)
    ensures forall a :: a in PreferArm(rules, n).names <==> Minimal(n.names, x => Chip(rules, x), a)
  {
    FilterIsPart(n.names, rules.arm64);
    FilterIsPart(n.names, rules.amd64);
    NoneIsEmpty(Filter(n.names, rules.arm64));
    NoneIsEmpty(Filter(n.names, rules.amd64));
  }

  lemma WideIsMinimal(rules: Rules, n: Narrowed)
    ensures PartOf(Drop32(rules, n).names, n.names)
    ensures forall a :: a in Drop32(rules, n).names <==> Minimal(n.names, x => Width(rules, x), a)
  {
    FilterIsPart(n.names, WideTest(rules));
    NoneIsEmpty(Filter(n.names, WideTest(rules)));
  }

  lemma {:induction false} TierIsMinimal(tiers: seq<string -> bool>, n: Narrowed)
    ensures PartOf(PreferTier(tiers, n).names, n.names)
    ensures forall a :: a in PreferTier(tiers, n).names <==> Minimal(n.names, x => Format(tiers, x), a)
  {
    if tiers != [] {
      FilterIsPart(n.names, tiers[0]);
      NoneIsEmpty(Filter(n.names, tiers[0]));
      if Filter(n.names, tiers[0]) == [] {
        TierIsMinimal(tiers[1..], n);
        assert forall b :: b in n.names ==> Format(tiers, b) == 1 + Format(tiers[1..], b);
      }
    }
  }

  lemma MuslIsMinimal(rules: Rules, n: Narrowed)
    ensures PartOf(PreferMusl(rules, n).names, n.names)
    ensures forall a :: a in PreferMusl(rules, n).names <==> Minimal(n.names, x => Libc(rules, x), a)
  {
    var musl := Filter(n.names, rules.musl);
    FilterIsPart(n.names, rules.musl);
    NoneIsEmpty(musl);
    if |musl| >= |n.names| {
      FullFilter(n.names, rules.musl);
    }
  }

  lemma {:induction false} FullFilter(names: seq<string>, test: string -> bool)
    requires |Filter(names, test)| >= |names|
    ensures forall a :: a in names ==> test(a)
  {
    if names != [] {
      FilterShrinks(names[..|names| - 1], test);
      FullFilter(names[..|names| - 1], test);
      assert names == names[..|names| - 1] + [names[|names| - 1]];
    }
  }

  /** What the tie-breaks leave are exactly the candidates that none precedes. */
  lemma TiebreakIsBest(rules: Rules, names: seq<string>)
    ensures PartOf(Tiebreak(rules, names).names, names)
    ensures forall a :: a in Tiebreak(rules, names).names <==>
                        a in names && forall b :: b in names ==> !Precedes(rules, b, a)
  {
    hide PartOf, Chip, Width, Format, Libc, PreferArm, Drop32, PreferTier, PreferMusl;
    var start := Narrowed(names, []);
    var arm := PreferArm(rules, start);
    var wide := Drop32(rules, arm);
    var tier := PreferTier(rules.tiers, wide);
    ArmIsMinimal(rules, start);
    WideIsMinimal(rules, arm);
    TierIsMinimal(rules.tiers, wide);
    MuslIsMinimal(rules, tier);
    PartOfPart(wide.names, arm.names, names);
    PartOfPart(tier.names, wide.names, names);
    PartOfPart(PreferMusl(rules, tier).names, tier.names, names);
    StagesAreLexical(rules, names, arm.names, wide.names, tier.names, PreferMusl(rules, tier).names);
  }

  lemma StagesAreLexical(rules: Rules, a: seq<string>, b: seq<string>, c: seq<string>, d: seq<string>, e: seq<string>)
    requires forall x :: x in b <==> Minimal(a, y => Chip(rules, y), x)
    requires forall x :: x in c <==> Minimal(b, y => Width(rules, y), x)
    requires forall x :: x in d <==> Minimal(c, y => Format(rules.tiers, y), x)
    requires forall x :: x in e <==> Minimal(d, y => Libc(rules, y), x)
    ensures forall x :: x in e <==> x in a && forall y :: y in a ==> !Precedes(rules, y, x)
  {
    hide Chip, Width, Format, Libc;
    forall x ensures x in e <==> x in a && forall y :: y in a ==> !Precedes(rules, y, x) {
      if x in e {
        forall y | y in a ensures !Precedes(rules, y, x) {
          assert x in d && x in c && x in b && Chip(rules, x) <= Chip(rules, y);
          if Chip(rules, y) == Chip(rules, x) {
            assert y in b && Width(rules, x) <= Width(rules, y);
            if Width(rules, y) == Width(rules, x) {
              assert y in c && Format(rules.tiers, x) <= Format(rules.tiers, y);
              if Format(rules.tiers, y) == Format(rules.tiers, x) {
                assert y in d;
              }
            }
          }
        }
      }
      if x in a && forall y :: y in a ==> !Precedes(rules, y, x) {
        assert x in b;
        assert forall y :: y in b ==> Chip(rules, y) == Chip(rules, x);
        assert x in c;
        assert forall y :: y in c ==> Width(rules, y) == Width(rules, x);
        assert x in d;
      }
    }
  }

  /** What the system detector hands on are exactly the usable assets of the best class. */
  lemma BySystemIsBest(rules: Rules, names: seq<string>)
    ensures var rest := NamesOf(BySystem(rules, names));
            && PartOf(rest, names)
            && forall a :: a in rest <==>
                 && a in names && !rules.checksum(a)
                 && forall b :: b in names && !rules.checksum(b) ==> Class(rules, a) <= Class(rules, b)
    ensures BySystem(rules, names).Direct? <==> |NamesOf(BySystem(rules, names))| == 1
  {
    hide Filter, PartOf;
    var first, matches := Filter(names, FirstTest(rules)), Filter(names, MatchTest(rules));
    var candidates, usable := Filter(names, OsTest(rules)), Filter(names, UsableTest(rules));
    FilterIsPart(names, FirstTest(rules));
    FilterIsPart(names, MatchTest(rules));
    FilterIsPart(names, OsTest(rules));
    FilterIsPart(names, UsableTest(rules));
    OneNames(first);
    OneNames(matches);
    OneNames(candidates);
    OneNames(usable);
    NoneIsEmpty(first);
    NoneIsEmpty(matches);
    NoneIsEmpty(candidates);
  }

  lemma OneNames(names: seq<string>)
    ensures NamesOf(One(names)) == names && (One(names).Direct? <==> |names| == 1)
  {}

  /** Among these it is the only best one: usable, there once, and better than every other usable one. */
  ghost predicate WinsAmong(rules: Rules, names: seq<string>, x: string)
  {
    && x in names && !rules.checksum(x) && multiset(names)[x] == 1
    && forall a :: a in names && !rules.checksum(a) && a != x ==> Beats(rules, x, a)
  }

  lemma SoleMember(names: seq<string>, x: string)
    ensures names == [x] <==> x in names && multiset(names)[x] == 1 && forall a :: a in names ==> a == x
  {
    if x in names && multiset(names)[x] == 1 && forall a :: a in names ==> a == x {
      AllCopies(names, x);
    }
  }

  lemma {:induction false} AllCopies(names: seq<string>, x: string)
    requires forall a :: a in names ==> a == x
    ensures |names| == multiset(names)[x]
  {
    if names != [] {
      assert names == [names[0]] + names[1..] && forall a :: a in names[1..] ==> a in names;
      assert names[0] in names;
      AllCopies(names[1..], x);
    }
  }

  /** An asset is chosen by system and tie-breaks if and only if it wins. */
  lemma RankIsBest(rules: Rules, names: seq<string>, fallback: set<string>, x: string)
    requires x != ""
    ensures Rank(rules, names, fallback).Chosen? && Rank(rules, names, fallback).name == x <==> WinsAmong(rules, names, x)
  {
    hide BySystem, Tiebreak, Class, Precedes, PartOf, WinsAmong;
    var verdict := BySystem(rules, names);
    var rest := NamesOf(verdict);
    BySystemIsBest(rules, names);
    var cands := Tiebreak(rules, rest).names;
    TiebreakIsBest(rules, rest);
    PartOfPart(cands, rest, names);
    WinsExactly(rules, names, rest, cands, x);
    if |rest| == 1 {
      OneStays(rules, rest, cands);
    }
    TiebreakNarrows(rules, rest);
  }

  lemma OneStays(rules: Rules, rest: seq<string>, cands: seq<string>)
    requires |rest| == 1 && PartOf(cands, rest)
    requires forall a :: a in cands <==> a in rest && forall b :: b in rest ==> !Precedes(rules, b, a)
    ensures cands == rest
  {
    assert rest == [rest[0]] && !Precedes(rules, rest[0], rest[0]);
    SoleMember(rest, rest[0]);
    SoleMember(cands, rest[0]);
  }

  lemma WinsExactly(rules: Rules, names: seq<string>, rest: seq<string>, cands: seq<string>, x: string)
    requires PartOf(rest, names) && PartOf(cands, names)
    requires forall a :: a in rest <==>
               && a in names && !rules.checksum(a)
               && forall b :: b in names && !rules.checksum(b) ==> Class(rules, a) <= Class(rules, b)
    requires forall a :: a in cands <==> a in rest && forall b :: b in rest ==> !Precedes(rules, b, a)
    ensures WinsAmong(rules, names, x) <==> cands == [x]
  {
    SoleMember(cands, x);
    if WinsAmong(rules, names, x) {
      forall b | b in rest ensures !Precedes(rules, b, x) {
        assert b != x ==> Beats(rules, x, b);
      }
      assert x in rest;
      assert x in cands;
      forall a | a in cands ensures a == x {
        assert a in rest && (a != x ==> Beats(rules, x, a));
      }
    }
    if cands == [x] {
      assert x in cands && x in rest;
      forall a | a in names && !rules.checksum(a) && a != x ensures Beats(rules, x, a) {
        if a in rest {
          assert a !in cands;
          var b :| b in rest && Precedes(rules, b, a);
          assert !Precedes(rules, b, x);
        }
      }
    }
  }

  // ---- which assets are in question ----

  /** Nothing speaks against installing it. */
  predicate Clean(rules: Rules, a: string)
  {
    !rules.blacklisted(a) && !rules.unsupported(a) && !rules.sourceLike(a) && !rules.container(a)
  }

  /** An asset is in question when it is clean, or, when none is, is a fallback for the platform; and when the
      filter lets it through. */
  ghost predicate Asked(rules: Rules, assets: seq<string>, filter: string, a: string)
  {
    && a in assets && !rules.blacklisted(a)
    && (if exists b :: b in assets && Clean(rules, b) then Clean(rules, a)
        else (rules.unsupported(a) || !rules.sourceLike(a)) && rules.os(a) && rules.arch(a))
    && (filter == ""
        || if filter[0] == '^' then !Contains(Base(a), filter[1..]) else Contains(Base(a), filter))
  }

  function AskedOf(rules: Rules, assets: seq<string>, filter: string): seq<string>
  {
    if filter == "" then Pool(rules, assets) else Filter(Pool(rules, assets), NeedleTest(Needle(filter), Inverted(filter)))
  }

  lemma PoolIsPart(rules: Rules, assets: seq<string>)
    ensures PartOf(Pool(rules, assets), assets)
    ensures forall a :: a in Pool(rules, assets) <==> Asked(rules, assets, "", a)
  {
    hide Filter, PartOf;
    FilterIsPart(assets, PreferredTest(rules));
    FilterIsPart(assets, EligibleTest(rules));
    NoneIsEmpty(Filter(assets, PreferredTest(rules)));
    forall b ensures b in assets && Clean(rules, b) <==> b in Filter(assets, PreferredTest(rules)) {}
  }

  lemma AskedIsListed(rules: Rules, assets: seq<string>, filter: string)
    ensures PartOf(AskedOf(rules, assets, filter), assets)
    ensures forall a :: a in AskedOf(rules, assets, filter) <==> Asked(rules, assets, filter, a)
  {
    hide Filter, PartOf, Pool;
    PoolIsPart(rules, assets);
    if filter != "" {
      FilterIsPart(Pool(rules, assets), NeedleTest(Needle(filter), Inverted(filter)));
      PartOfPart(AskedOf(rules, assets, filter), Pool(rules, assets), assets);
    }
  }

  /** An asset in question has exactly the name that is asked for. */
  ghost predicate Exact(rules: Rules, assets: seq<string>, filter: string, a: string)
  {
    filter != "" && filter[0] != '^' && Asked(rules, assets, filter, a) && Base(a) == filter
  }

  /** It is the only one in question, and there once. */
  ghost predicate OnlyAsked(rules: Rules, assets: seq<string>, filter: string, x: string)
  {
    && Asked(rules, assets, filter, x) && multiset(assets)[x] == 1
    && forall a :: a in assets && Asked(rules, assets, filter, a) ==> a == x
  }

  /** It is usable, there once, and better than every other usable asset in question. */
  ghost predicate Wins(rules: Rules, assets: seq<string>, filter: string, x: string)
  {
    && Asked(rules, assets, filter, x) && !rules.checksum(x) && multiset(assets)[x] == 1
    && forall a :: a in assets && Asked(rules, assets, filter, a) && !rules.checksum(a) && a != x ==> Beats(rules, x, a)
  }

  lemma NoExactIsEmpty(rules: Rules, assets: seq<string>, filter: string)
    requires filter != "" && !Inverted(filter)
    ensures Filter(Pool(rules, assets), BaseTest(Needle(filter))) == [] <==> forall a :: !Exact(rules, assets, filter, a)
    ensures forall a :: a in Filter(Pool(rules, assets), BaseTest(Needle(filter))) ==> Exact(rules, assets, filter, a)
  {
    hide Filter, Pool;
    PoolIsPart(rules, assets);
    FilterIsPart(Pool(rules, assets), BaseTest(Needle(filter)));
    NoneIsEmpty(Filter(Pool(rules, assets), BaseTest(Needle(filter))));
    forall a ensures Exact(rules, assets, filter, a) <==> a in Filter(Pool(rules, assets), BaseTest(Needle(filter))) {
      assert Base(a) == Needle(filter) ==> Contains(Base(a), Needle(filter));
    }
  }

  lemma WinsOf(rules: Rules, assets: seq<string>, filter: string, x: string)
    ensures var names := AskedOf(rules, assets, filter);
            && (WinsAmong(rules, names, x) <==> Wins(rules, assets, filter, x))
            && (names == [x] <==> OnlyAsked(rules, assets, filter, x))
  {
    hide AskedOf, Beats, Clean, Contains, Base;
    var names := AskedOf(rules, assets, filter);
    AskedIsListed(rules, assets, filter);
    SoleMember(names, x);
  }

  /** Unless an asset has exactly the name asked for, what is chosen is the only one in question after a filter, or
      the one that is better than all others: nothing else, and whenever there is such a one. */
  lemma ChoiceIsTheBest(rules: Rules, assets: seq<string>, filter: string, x: string)
    requires x != "" && forall a :: !Exact(rules, assets, filter, a)
    ensures Choice(rules, assets, filter).Chosen? && Choice(rules, assets, filter).name == x <==>
            (filter != "" && OnlyAsked(rules, assets, filter, x)) || Wins(rules, assets, filter, x)
  {
    hide Filter, Rank, Pool, WinsAmong, Wins, OnlyAsked, Exact, Contains, Base;
    var names := AskedOf(rules, assets, filter);
    WinsOf(rules, assets, filter, x);
    RankIsBest(rules, names, Fallback(rules, assets), x);
    NoneWins(rules, x);
    if filter != "" {
      if !Inverted(filter) {
        NoExactIsEmpty(rules, assets, filter);
      }
      SoleWins(rules, names, x);
      FilterOfNone(NeedleTest(Needle(filter), Inverted(filter)));
    }
  }

  lemma FilterOfNone(test: string -> bool)
    ensures Filter([], test) == []
  {}

  lemma NoneWins(rules: Rules, x: string)
    ensures !WinsAmong(rules, [], x)
  {}

  lemma SoleWins(rules: Rules, names: seq<string>, x: string)
    ensures |names| == 1 && WinsAmong(rules, names, x) ==> names == [x]
  {}

  /** And when one has, the first of these is chosen. */
  lemma ExactIsChosen(rules: Rules, assets: seq<string>, filter: string)
    requires exists a :: Exact(rules, assets, filter, a)
    ensures var chosen := Choice(rules, assets, filter);
            chosen.Chosen? ==> chosen.steps == [ByFilter] && Exact(rules, assets, filter, chosen.name)
    ensures (forall a :: Exact(rules, assets, filter, a) ==> a != "") ==> Choice(rules, assets, filter).Chosen?
  {
    hide Filter, Rank, Pool, Contains, Base;
    NoExactIsEmpty(rules, assets, filter);
    FilterOfNone(BaseTest(Needle(filter)));
    var exact := Filter(Pool(rules, assets), BaseTest(Needle(filter)));
    assert exact[0] in exact;
  }

  lemma {:induction false} TierNotes(tiers: seq<string -> bool>, n: Narrowed)
    ensures ByFilter in PreferTier(tiers, n).steps <==> ByFilter in n.steps
  {
    if tiers != [] {
      TierNotes(tiers[1..], n);
    }
  }

  lemma TiebreakNotes(rules: Rules, names: seq<string>)
    ensures ByFilter !in Tiebreak(rules, names).steps
  {
    hide PreferTier;
    TierNotes(rules.tiers, Drop32(rules, PreferArm(rules, Narrowed(names, []))));
  }

  /** What is noted about the assets when none of them is clean. */
  lemma FallbackNotes(rules: Rules, assets: seq<string>)
    ensures Fallback(rules, assets)
            == set a | a in assets && !rules.blacklisted(a) && (forall b :: b in assets ==> !Clean(rules, b)) ::
                 (if rules.sourceLike(a) && !rules.unsupported(a) then "source" else rules.limit(a)) + "-fallback"
  {
    hide Filter;
    FilterIn(assets, PreferredTest(rules));
    FilterIn(assets, DemotedTest(rules));
    NoneIsEmpty(Filter(assets, PreferredTest(rules)));
    if b :| b in assets && Clean(rules, b) {
      assert b in Filter(assets, PreferredTest(rules));
    }
    if Filter(assets, PreferredTest(rules)) != [] {
      var b := Filter(assets, PreferredTest(rules))[0];
      assert b in Filter(assets, PreferredTest(rules)) && Clean(rules, b);
    }
  }

  lemma ChoiceNotes(rules: Rules, assets: seq<string>, filter: string)
    ensures var outcome := Choice(rules, assets, filter);
            && (outcome.Chosen? ==>
                  outcome.fallback
                  == set a | a in assets && !rules.blacklisted(a) && (forall b :: b in assets ==> !Clean(rules, b)) ::
                       (if rules.sourceLike(a) && !rules.unsupported(a) then "source" else rules.limit(a)) + "-fallback")
            && (outcome.Chosen? && filter == "" ==> ByFilter !in outcome.steps)
  {
    hide Filter, Tiebreak, BySystem, ByAsset, Fallback, Clean;
    FallbackNotes(rules, assets);
    match BySystem(rules, Pool(rules, assets)) {
      case Direct(_) =>
      case Several(rest) => TiebreakNotes(rules, rest);
    }
  }

  /** What is noted as the choice of the filter is its choice, and the rest is chosen for the system: one with
      priority if there is any, else one for system and architecture, else one for the system. */
  lemma ChoiceByPreference(rules: Rules, assets: seq<string>, filter: string, a: string)
    requires var chosen := Choice(rules, assets, filter); chosen.Chosen? && chosen.name != "" && ByFilter !in chosen.steps
    requires Asked(rules, assets, filter, a) && !rules.checksum(a)
    ensures var x := Choice(rules, assets, filter).name;
            && Asked(rules, assets, filter, x) && !rules.checksum(x)
            && (rules.priority(a) ==> rules.priority(x))
            && (!rules.priority(x) && rules.os(a) && rules.arch(a) ==> rules.os(x) && rules.arch(x))
            && (!rules.priority(x) && rules.os(a) ==> rules.os(x))
  {
    hide Choice, Asked, Precedes, OnlyAsked, Exact;
    var x := Choice(rules, assets, filter).name;
    if exists e :: Exact(rules, assets, filter, e) {
      ExactIsChosen(rules, assets, filter);
    }
    ChoiceIsTheBest(rules, assets, filter, x);
    if filter != "" && OnlyAsked(rules, assets, filter, x) {
      OnlyAskedIsByFilter(rules, assets, filter, x);
    }
    AskedIsAsset(rules, assets, filter, a);
    assert a != x ==> Beats(rules, x, a);
  }

  lemma AskedIsAsset(rules: Rules, assets: seq<string>, filter: string, a: string)
    requires Asked(rules, assets, filter, a)
    ensures a in assets
  {}

  /** The only asset that a filter lets through is its choice. */
  lemma OnlyAskedIsByFilter(rules: Rules, assets: seq<string>, filter: string, x: string)
    requires filter != "" && x != "" && OnlyAsked(rules, assets, filter, x) && forall a :: !Exact(rules, assets, filter, a)
    ensures Choice(rules, assets, filter) == Chosen(x, Fallback(rules, assets), [ByFilter])
  {
    hide Filter, Pool, Contains, Base, OnlyAsked, Exact;
    WinsOf(rules, assets, filter, x);
    FilterOfNone(NeedleTest(Needle(filter), Inverted(filter)));
    if !Inverted(filter) {
      NoExactIsEmpty(rules, assets, filter);
    }
  }

  // ---- the order of the assets ----

  ghost predicate SameVerdict(v: Verdict, w: Verdict)
  {
    match (v, w)
    case (Direct(a), Direct(b)) => a == b
    case (Several(a), Several(b)) => Same(a, b)
    case _ => false
  }

  ghost predicate SameNarrowed(n: Narrowed, m: Narrowed)
  {
    Same(n.names, m.names) && n.steps == m.steps
  }

  lemma OneSame(a: seq<string>, b: seq<string>)
    requires Same(a, b)
    ensures SameVerdict(One(a), One(b))
  {
    SameFacts(a, b);
  }

  lemma BySystemSame(rules: Rules, a: seq<string>, b: seq<string>)
    requires Same(a, b)
    ensures SameVerdict(BySystem(rules, a), BySystem(rules, b))
  {
    FilterSame(a, b, FirstTest(rules));
    FilterSame(a, b, MatchTest(rules));
    FilterSame(a, b, OsTest(rules));
    FilterSame(a, b, UsableTest(rules));
    OneSame(Filter(a, FirstTest(rules)), Filter(b, FirstTest(rules)));
    OneSame(Filter(a, MatchTest(rules)), Filter(b, MatchTest(rules)));
    OneSame(Filter(a, OsTest(rules)), Filter(b, OsTest(rules)));
    OneSame(Filter(a, UsableTest(rules)), Filter(b, UsableTest(rules)));
  }

  lemma {:induction false} TierSame(tiers: seq<string -> bool>, n: Narrowed, m: Narrowed)
    requires SameNarrowed(n, m)
    ensures SameNarrowed(PreferTier(tiers, n), PreferTier(tiers, m))
  {
    SameFacts(n.names, m.names);
    if tiers != [] {
      FilterSame(n.names, m.names, tiers[0]);
      TierSame(tiers[1..], n, m);
    }
  }

  lemma Drop32Same(rules: Rules, n: Narrowed, m: Narrowed)
    requires SameNarrowed(n, m)
    ensures SameNarrowed(Drop32(rules, n), Drop32(rules, m))
  {
    SameFacts(n.names, m.names);
    FilterSame(n.names, m.names, WideTest(rules));
  }

  lemma MuslSame(rules: Rules, n: Narrowed, m: Narrowed)
    requires SameNarrowed(n, m)
    ensures SameNarrowed(PreferMusl(rules, n), PreferMusl(rules, m))
  {
    SameFacts(n.names, m.names);
    FilterSame(n.names, m.names, rules.musl);
  }

  lemma TiebreakSame(rules: Rules, a: seq<string>, b: seq<string>)
    requires Same(a, b)
    ensures SameNarrowed(Tiebreak(rules, a), Tiebreak(rules, b))
  {
    FilterSame(a, b, rules.arm64);
    FilterSame(a, b, rules.amd64);
    var n, m := PreferArm(rules, Narrowed(a, [])), PreferArm(rules, Narrowed(b, []));
    Drop32Same(rules, n, m);
    TierSame(rules.tiers, Drop32(rules, n), Drop32(rules, m));
    MuslSame(rules, PreferTier(rules.tiers, Drop32(rules, n)), PreferTier(rules.tiers, Drop32(rules, m)));
  }

  lemma RankSame(rules: Rules, a: seq<string>, b: seq<string>, fallback: set<string>)
    requires Same(a, b)
    ensures Rank(rules, a, fallback) == Rank(rules, b, fallback)
  {
    BySystemSame(rules, a, b);
    var v, w := BySystem(rules, a), BySystem(rules, b);
    if v.Several? {
      SameFacts(v.names, w.names);
      TiebreakSame(rules, v.names, w.names);
      SameFacts(Tiebreak(rules, v.names).names, Tiebreak(rules, w.names).names);
    }
  }

  lemma PoolSame(rules: Rules, a: seq<string>, b: seq<string>)
    requires Same(a, b)
    ensures Same(Pool(rules, a), Pool(rules, b)) && Fallback(rules, a) == Fallback(rules, b)
    ensures Pool(rules, a) == [] <==> Pool(rules, b) == []
  {
    FilterSame(a, b, PreferredTest(rules));
    FilterSame(a, b, EligibleTest(rules));
    FilterSame(a, b, DemotedTest(rules));
    SameFacts(Filter(a, DemotedTest(rules)), Filter(b, DemotedTest(rules)));
  }

  /** At most one of the names has this base. */
  predicate Sole(names: seq<string>, needle: string)
  {
    forall x, y :: x in names && y in names && Base(x) == needle && Base(y) == needle ==> x == y
  }

  /** Two different assets of the pool have the base name that is asked for. */
  predicate Ambiguous(rules: Rules, assets: seq<string>, filter: string)
  {
    filter != "" && !Inverted(filter) && !Sole(Pool(rules, assets), Needle(filter))
  }

  lemma ExactSame(a: seq<string>, b: seq<string>, needle: string)
    requires Same(a, b) && Sole(a, needle)
    ensures var p, q := Filter(a, BaseTest(needle)), Filter(b, BaseTest(needle));
            |p| == |q| && (p != [] ==> p[0] == q[0])
  {
    var p, q := Filter(a, BaseTest(needle)), Filter(b, BaseTest(needle));
    FilterSame(a, b, BaseTest(needle));
    SameFacts(p, q);
    FilterIn(a, BaseTest(needle));
    if p != [] {
      assert p[0] in p && q[0] in q;
    }
  }

  lemma ByAssetSame(a: seq<string>, b: seq<string>, needle: string, anti: bool)
    requires Same(a, b) && (anti || Sole(a, needle))
    ensures SameVerdict(ByAsset(a, needle, anti), ByAsset(b, needle, anti))
  {
    FilterSame(a, b, NeedleTest(needle, anti));
    OneSame(Filter(a, NeedleTest(needle, anti)), Filter(b, NeedleTest(needle, anti)));
    if !anti {
      ExactSame(a, b, needle);
    }
  }

  lemma NarrowSame(rules: Rules, a: seq<string>, b: seq<string>, fallback: set<string>, filter: string)
    requires Same(a, b) && (Inverted(filter) || Sole(a, Needle(filter)))
    ensures Narrow(rules, a, fallback, filter) == Narrow(rules, b, fallback, filter)
  {
    ByAssetSame(a, b, Needle(filter), Inverted(filter));
    var v, w := ByAsset(a, Needle(filter), Inverted(filter)), ByAsset(b, Needle(filter), Inverted(filter));
    if v.Several? {
      SameFacts(v.names, w.names);
      RankSame(rules, v.names, w.names, fallback);
    }
  }

  /** The order of the assets never matters, unless two of them compete for the name asked for. */
  lemma OrderDoesNotMatter(rules: Rules, a: seq<string>, b: seq<string>, filter: string)
    requires Same(a, b) && !Ambiguous(rules, a, filter)
    ensures Choice(rules, a, filter) == Choice(rules, b, filter)
  {
    PoolSame(rules, a, b);
    if filter == "" {
      RankSame(rules, Pool(rules, a), Pool(rules, b), Fallback(rules, a));
    } else {
      NarrowSame(rules, Pool(rules, a), Pool(rules, b), Fallback(rules, a), filter);
    }
  }

  lemma PoolWithin(rules: Rules, assets: seq<string>)
    ensures Within(Pool(rules, assets), assets)
  {
    FilterWithin(assets, PreferredTest(rules));
    FilterWithin(assets, EligibleTest(rules));
  }

  /** In particular it does not matter for distinct plain names. */
  lemma PlainNamesAreNotAmbiguous(rules: Rules, assets: seq<string>, filter: string)
    requires forall a :: a in assets ==> a != "" && '/' !in a
    ensures !Ambiguous(rules, assets, filter)
  {
    PoolWithin(rules, assets);
    forall x | x in Pool(rules, assets) ensures Base(x) == x {
      PlainBase(x);
    }
  }

  lemma {:induction false} FilterCons(x: string, rest: seq<string>, test: string -> bool)
    ensures Filter([x] + rest, test) == (if test(x) then [x] else []) + Filter(rest, test)
    decreases |rest|
  {
    if rest == [] {
      assert [x] + rest == [] + [x];
      FilterMore([], x, test);
    } else {
      var front, last := rest[..|rest| - 1], rest[|rest| - 1];
      assert [x] + rest == ([x] + front) + [last] && rest == front + [last];
      FilterCons(x, front, test);
      FilterMore([x] + front, last, test);
      FilterMore(front, last, test);
    }
  }

  lemma FirstInPool(rules: Rules, x: string, rest: seq<string>)
    requires x in Pool(rules, [x] + rest)
    ensures Pool(rules, [x] + rest)[0] == x
  {
    FilterCons(x, rest, PreferredTest(rules));
    FilterCons(x, rest, EligibleTest(rules));
    FilterIn([x] + rest, PreferredTest(rules));
    FilterIn([x] + rest, EligibleTest(rules));
  }

  /** Put first, an asset with the name asked for is taken, or refused if it is the empty name. */
  lemma FirstIsTaken(rules: Rules, x: string, rest: seq<string>, filter: string)
    requires filter != "" && !Inverted(filter) && Base(x) == Needle(filter)
    requires x in Pool(rules, [x] + rest)
    ensures Choice(rules, [x] + rest, filter)
            == if x == "" then Refused else Chosen(x, Fallback(rules, [x] + rest), [ByFilter])
  {
    var pool := Pool(rules, [x] + rest);
    FirstInPool(rules, x, rest);
    assert pool == [x] + pool[1..];
    FilterCons(x, pool[1..], BaseTest(Needle(filter)));
  }

  lemma ToFront(assets: seq<string>, x: string) returns (rest: seq<string>)
    requires x in assets
    ensures Same([x] + rest, assets)
  {
    var i :| 0 <= i < |assets| && assets[i] == x;
    rest := assets[..i] + assets[i + 1..];
    assert assets == assets[..i] + [x] + assets[i + 1..];
  }

  lemma MovedFirst(rules: Rules, assets: seq<string>, x: string, filter: string) returns (a: seq<string>)
    requires filter != "" && !Inverted(filter) && Base(x) == Needle(filter) && x in Pool(rules, assets)
    ensures Same(a, assets)
    ensures Choice(rules, a, filter) == if x == "" then Refused else Chosen(x, Fallback(rules, a), [ByFilter])
  {
    PoolWithin(rules, assets);
    var rest := ToFront(assets, x);
    a := [x] + rest;
    PoolSame(rules, a, assets);
    SameFacts(Pool(rules, a), Pool(rules, assets));
    FirstIsTaken(rules, x, rest, filter);
  }

  /** When two assets do compete, the order decides. */
  lemma OrderMatters(rules: Rules, assets: seq<string>, filter: string) returns (a: seq<string>, b: seq<string>)
    requires Ambiguous(rules, assets, filter)
    ensures Same(a, assets) && Same(b, assets) && Choice(rules, a, filter) != Choice(rules, b, filter)
  {
    var x, y :| x in Pool(rules, assets) && y in Pool(rules, assets)
                && Base(x) == Needle(filter) && Base(y) == Needle(filter) && x != y;
    a := MovedFirst(rules, assets, x, filter);
    b := MovedFirst(rules, assets, y, filter);
  }

  // ---- the loops ----

  lemma {:induction false} FilterIsPrefix(names: seq<string>, n: nat, test: string -> bool)
    requires n <= |names|
    ensures Filter(names[..n], test) <= Filter(names, test)
    decreases |names|
  {
    if n == |names| {
      assert names[..n] == names;
    } else {
      var front, last := names[..|names| - 1], names[|names| - 1];
      FilterIsPrefix(front, n, test);
      assert front[..n] == names[..n];
      assert Filter(names, test) == Filter(front, test) + if test(last) then [last] else [];
    }
  }

  lemma NextName(names: seq<string>, i: nat, test: string -> bool)
    requires i < |names|
    ensures Filter(names[..i + 1], test) == Filter(names[..i], test) + if test(names[i]) then [names[i]] else []
  {
    assert names[..i + 1] == names[..i] + [names[i]];
    FilterMore(names[..i], names[i], test);
  }

  method Keep(names: seq<string>, test: string -> bool) returns (kept: seq<string>)
    ensures kept == Filter(names, test)
  {
    kept := [];
    for i := 0 to |names|
      invariant kept == Filter(names[..i], test)
    {
      NextName(names, i, test);
      if test(names[i]) {
        kept := kept + [names[i]];
      }
    }
    assert names[..|names|] == names;
  }

  /** Split the assets in one pass. */
  method Partition(rules: Rules, assets: seq<string>) returns (preferred: seq<string>, demoted: seq<string>)
    ensures preferred == Filter(assets, PreferredTest(rules)) && demoted == Filter(assets, DemotedTest(rules))
  {
    preferred, demoted := [], [];
    for i := 0 to |assets|
      invariant preferred == Filter(assets[..i], PreferredTest(rules))
      invariant demoted == Filter(assets[..i], DemotedTest(rules))
    {
      var a := assets[i];
      NextName(assets, i, PreferredTest(rules));
      NextName(assets, i, DemotedTest(rules));
      if rules.blacklisted(a) {
        continue;
      }
      if rules.unsupported(a) || rules.sourceLike(a) || rules.container(a) {
        demoted := demoted + [a];
      } else {
        preferred := preferred + [a];
      }
    }
    assert assets[..|assets|] == assets;
  }

  /** The detector of a single named asset: an exact name wins at once. */
  method DetectAsset(names: seq<string>, needle: string, anti: bool) returns (verdict: Verdict)
    ensures verdict == ByAsset(names, needle, anti)
  {
    var candidates := [];
    for i := 0 to |names|
      invariant candidates == Filter(names[..i], NeedleTest(needle, anti))
      invariant !anti ==> Filter(names[..i], BaseTest(needle)) == []
    {
      NextName(names, i, NeedleTest(needle, anti));
      NextName(names, i, BaseTest(needle));
      if !anti && Base(names[i]) == needle {
        FilterIsPrefix(names, i + 1, BaseTest(needle));
        return Direct(names[i]);
      }
      if Contains(Base(names[i]), needle) != anti {
        candidates := candidates + [names[i]];
      }
    }
    assert names[..|names|] == names;
    verdict := One(candidates);
  }

  /** The detector of the target system, filling four lists in one pass. */
  method DetectSystem(rules: Rules, names: seq<string>) returns (verdict: Verdict)
    ensures verdict == BySystem(rules, names)
  {
    var first, matches, candidates, all := [], [], [], [];
    for i := 0 to |names|
      invariant first == Filter(names[..i], FirstTest(rules)) && matches == Filter(names[..i], MatchTest(rules))
      invariant candidates == Filter(names[..i], OsTest(rules)) && all == Filter(names[..i], UsableTest(rules))
    {
      var a := names[i];
      NextName(names, i, FirstTest(rules));
      NextName(names, i, MatchTest(rules));
      NextName(names, i, OsTest(rules));
      NextName(names, i, UsableTest(rules));
      if rules.checksum(a) {
        continue;
      }
      if rules.priority(a) {
        first := first + [a];
      }
      if rules.os(a) && rules.arch(a) {
        matches := matches + [a];
      }
      if rules.os(a) {
        candidates := candidates + [a];
      }
      all := all + [a];
    }
    assert names[..|names|] == names;
    verdict := One(if first != [] then first else if matches != [] then matches
                   else if candidates != [] then candidates else all);
  }

  /** Narrow the candidates step by step. */
  method BreakTies(rules: Rules, names: seq<string>) returns (cands: seq<string>, steps: seq<Step>)
    ensures Narrowed(cands, steps) == Tiebreak(rules, names)
    // A part of the candidates, not empty unless they are, and a note only when some have been dropped;
    // the Rosetta note says that there is no candidate for the processor but one for the other.
    ensures (forall name :: name in cands ==> name in names) && (names != [] ==> cands != [])
    ensures (exists step :: step in steps && step != RosettaFallback) ==> |cands| < |names|
    ensures RosettaFallback in steps <==>
            rules.darwinArm && Filter(names, rules.arm64) == [] && Filter(names, rules.amd64) != []
  {
    hide Tiebreak;
    cands, steps := NarrowDown(rules, names);
    TiebreakWithin(rules, names);
    TiebreakNarrows(rules, names);
    assert steps[0..] == steps;
  }

  method NarrowDown(rules: Rules, names: seq<string>) returns (cands: seq<string>, steps: seq<Step>)
    ensures Narrowed(cands, steps) == Tiebreak(rules, names)
  {
    cands, steps := names, [];
    if rules.darwinArm {
      var arm := Keep(cands, rules.arm64);
      var amd := Keep(cands, rules.amd64);
      if |arm| > 0 {
        cands := arm;
      } else if |amd| > 0 {
        cands, steps := amd, steps + [RosettaFallback];
      }
    }
    if rules.bits64 {
      var wide := Keep(cands, WideTest(rules));
      if |wide| > 0 {
        steps := if |wide| < |cands| then steps + [Without32Bit] else steps;
        cands := wide;
      }
    }
    cands, steps := BreakByTier(rules.tiers, cands, steps);
    if rules.linux {
      var musl := Keep(cands, rules.musl);
      if 0 < |musl| < |cands| {
        cands, steps := musl, steps + [MuslPreference];
      }
    }
  }

  method BreakByTier(tiers: seq<string -> bool>, names: seq<string>, before: seq<Step>)
    returns (cands: seq<string>, steps: seq<Step>)
    ensures Narrowed(cands, steps) == PreferTier(tiers, Narrowed(names, before))
  {
    for i := 0 to |tiers|
      invariant PreferTier(tiers, Narrowed(names, before)) == PreferTier(tiers[i..], Narrowed(names, before))
    {
      var sub := Keep(names, tiers[i]);
      if |sub| > 0 {
        return sub, if |sub| < |names| then before + [ArchivePreference] else before;
      }
    }
    cands, steps := names, before;
  }

  /** Pick the asset to install. */
  method Pick(rules: Rules, assets: seq<string>, filter: string) returns (outcome: Outcome)
    ensures outcome == Choice(rules, assets, filter)
    // Without a clean asset it notes what is wrong with each that is not excluded; without a filter none has decided.
    ensures outcome.Chosen? ==>
              outcome.fallback
              == set a | a in assets && !rules.blacklisted(a) && (forall b :: b in assets ==> !Clean(rules, b)) ::
                   (if rules.sourceLike(a) && !rules.unsupported(a) then "source" else rules.limit(a)) + "-fallback"
    ensures outcome.Chosen? && filter == "" ==> ByFilter !in outcome.steps
    // An asset with exactly the name asked for comes first.
    ensures outcome.Chosen? && (exists a :: Exact(rules, assets, filter, a)) ==> Exact(rules, assets, filter, outcome.name)
    // Unless the filter has decided: with priority if any is, else for system and architecture, else for the system.
    ensures outcome.Chosen? && outcome.name != "" && ByFilter !in outcome.steps ==>
              forall a :: Asked(rules, assets, filter, a) && !rules.checksum(a) ==>
                && (rules.priority(a) ==> rules.priority(outcome.name))
                && (!rules.priority(outcome.name) && rules.os(a) && rules.arch(a) ==>
                      rules.os(outcome.name) && rules.arch(outcome.name))
                && (!rules.priority(outcome.name) && rules.os(a) ==> rules.os(outcome.name))
    // It is the one that is better than all others, whenever there is such a one.
    ensures forall x :: x != "" && (forall a :: !Exact(rules, assets, filter, a)) ==>
              (outcome.Chosen? && outcome.name == x <==>
               (filter != "" && OnlyAsked(rules, assets, filter, x)) || Wins(rules, assets, filter, x))
  {
    hide Choice, Asked, Exact, OnlyAsked, Wins;
    outcome := Choose(rules, assets, filter);
    ChoiceNotes(rules, assets, filter);
    if exists a :: Exact(rules, assets, filter, a) {
      ExactIsChosen(rules, assets, filter);
    }
    ghost var none := forall a :: !Exact(rules, assets, filter, a);
    forall x | x != "" && none
      ensures outcome.Chosen? && outcome.name == x <==>
              (filter != "" && OnlyAsked(rules, assets, filter, x)) || Wins(rules, assets, filter, x)
    {
      ChoiceIsTheBest(rules, assets, filter, x);
    }
    if outcome.Chosen? && outcome.name != "" && ByFilter !in outcome.steps {
      forall a | Asked(rules, assets, filter, a) && !rules.checksum(a)
        ensures (rules.priority(a) ==> rules.priority(outcome.name))
                && (!rules.priority(outcome.name) && rules.os(a) && rules.arch(a) ==>
                      rules.os(outcome.name) && rules.arch(outcome.name))
                && (!rules.priority(outcome.name) && rules.os(a) ==> rules.os(outcome.name))
      {
        ChoiceByPreference(rules, assets, filter, a);
      }
    }
  }

  /** The loops compute the declarative choice. */
  method Choose(rules: Rules, assets: seq<string>, filter: string) returns (outcome: Outcome)
    ensures outcome == Choice(rules, assets, filter)
  {
    hide Filter, ByAsset, BySystem, Tiebreak, Contains, Base;
    var preferred, demoted := Partition(rules, assets);
    var pool, fallback := preferred, {};
    if |preferred| == 0 {
      pool := Keep(assets, EligibleTest(rules));
      fallback := set a | a in demoted :: Limit(rules, a);
    }
    if |pool| == 0 {
      return Refused;
    }
    if filter != "" {
      var verdict := DetectAsset(pool, Needle(filter), Inverted(filter));
      match verdict {
        case Direct(name) =>
          return if name != "" then Chosen(name, fallback, [ByFilter]) else Refused;
        case Several(rest) =>
          if |rest| == 0 {
            return Refused;
          }
          pool := rest;
      }
    }
    var verdict := DetectSystem(rules, pool);
    match verdict {
      case Direct(name) =>
        outcome := if name != "" then Chosen(name, fallback, []) else Refused;
      case Several(rest) =>
        if |rest| == 0 {
          return Refused;
        }
        var cands, steps := BreakTies(rules, rest);
        outcome := if |cands| == 1 then Chosen(cands[0], fallback, steps) else Refused;
    }
  }
}
