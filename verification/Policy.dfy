/** Which release an upgrade activates: an exact pin, the latest release, or the highest version. */
module Policy {
  import opened Names
  import Versions

  datatype Mode = Semver | GithubLatest

  datatype Channel = Stable | AnyRelease

  datatype UpdatePolicy = UpdatePolicy(mode: Mode, channel: Channel, pinned: string)

  datatype Release = Release(tag: string, draft: bool, prerelease: bool)

  datatype Decision = Keep(candidate: string) | Activate(candidate: string) | Refused

  /** What the decision needs to know about versions: which tags are versions, which of those are
      pre-releases, and how two compare. */
  datatype Scheme = Scheme(semantic: string -> bool, pre: string -> bool, compare: (string, string) -> int)

  /** Tags that stand for no version. */
  predicate Baseline(tag: string)
  {
    Lower(tag) in {"local", "adopted", "original"}
  }

  /** Versions are totally ordered up to equality of versions, and no baseline is one. */
  ghost predicate Lawful(s: Scheme)
  {
    && (forall a, b :: s.compare(a, b) < 0 <==> s.compare(b, a) > 0)
    && (forall a, b, c :: s.compare(a, b) <= 0 && s.compare(b, c) <= 0 ==> s.compare(a, c) <= 0)
    && (forall a :: s.semantic(a) ==> !Baseline(a))
  }

  // ---- the order among tags ----

  /** A higher version, or another spelling of the same one that comes first. */
  predicate Better(s: Scheme, a: string, b: string)
  {
    s.compare(a, b) > 0 || (s.compare(a, b) == 0 && Less(a, b))
  }

  lemma BetterIsTransitive(s: Scheme, a: string, b: string, c: string)
    requires Lawful(s) && !Better(s, b, a) && !Better(s, c, b)
    ensures !Better(s, c, a)
  {
    LessIsTotal(a, b);
    LessIsTotal(b, c);
    LessIsTotal(a, c);
    if Less(a, b) && Less(b, c) {
      LessIsTransitive(a, b, c);
    }
  }

  predicate Eligible(s: Scheme, channel: Channel, r: Release)
  {
    && !r.draft && r.tag != "" && s.semantic(r.tag)
    && (channel == Stable ==> !r.prerelease && !s.pre(r.tag))
  }

  /** The tag of an eligible release than which none is better. */
  predicate Best(s: Scheme, channel: Channel, releases: seq<Release>, tag: string)
  {
    && (exists r :: r in releases && Eligible(s, channel, r) && r.tag == tag)
    && (forall r :: r in releases && Eligible(s, channel, r) ==> !Better(s, r.tag, tag))
  }

  /** The best tag only depends on which releases there are, not on their order. */
  lemma BestIsUnique(s: Scheme, channel: Channel, a: seq<Release>, b: seq<Release>, x: string, y: string)
    requires Lawful(s) && (forall r :: r in a <==> r in b) && Best(s, channel, a, x) && Best(s, channel, b, y)
    ensures x == y
  {
    assert !Better(s, x, y) && !Better(s, y, x);
    LessIsTotal(x, y);
  }

  /** What follows from the best tag. */
  function Judged(s: Scheme, current: string, best: string): Decision
  {
    if Baseline(current) then Activate(best)
    else if !s.semantic(current) || s.compare(best, current) < 0 then Refused
    else if s.compare(best, current) == 0 then Keep(best)
    else Activate(best)
  }

  // ---- the decision ----

  /** The best eligible release decides, if there is one. */
  predicate SemverDecides(s: Scheme, channel: Channel, current: string, releases: seq<Release>, d: Decision)
  {
    || (d == Refused && forall r :: r in releases ==> !Eligible(s, channel, r))
    || exists r :: r in releases && Best(s, channel, releases, r.tag) && d == Judged(s, current, r.tag)
  }

  /** The first listed release decides, if there is one. */
  predicate LegacyDecides(channel: Channel, current: string, releases: seq<Release>, d: Decision)
  {
    || (d == Refused && forall r :: r in releases ==> !Listed(channel, r))
    || exists i :: 0 <= i < |releases| && Listed(channel, releases[i])
         && (forall j :: 0 <= j < i ==> !Listed(channel, releases[j]))
         && d == if releases[i].tag == current then Keep(current) else Activate(releases[i].tag)
  }

  /** The active pin stays; otherwise the first release of that name decides, if there is one. */
  predicate PinDecides(pin: string, current: string, releases: seq<Release>, d: Decision)
  {
    if pin == current then d == Keep(pin)
    else
      || (d == Refused && forall r :: r in releases ==> r.tag != pin)
      || exists i :: 0 <= i < |releases| && releases[i].tag == pin && (forall j :: 0 <= j < i ==> releases[j].tag != pin)
           && d == if releases[i].draft then Refused else Activate(pin)
  }

  /** What the policy decides. */
  predicate Decides(s: Scheme, policy: UpdatePolicy, current: string, releases: seq<Release>, d: Decision)
  {
    if !Trimmed(policy.pinned) then d == Refused
    else if policy.pinned != "" then PinDecides(policy.pinned, current, releases, d)
    else if policy.mode == GithubLatest then LegacyDecides(policy.channel, current, releases, d)
    else SemverDecides(s, policy.channel, current, releases, d)
  }

  /** There is one decision, and how the releases are ordered only matters where the first one counts. */
  lemma DecisionIsUnique(s: Scheme, policy: UpdatePolicy, current: string, releases: seq<Release>, a: Decision, b: Decision)
    requires Lawful(s) && Decides(s, policy, current, releases, a) && Decides(s, policy, current, releases, b)
    ensures a == b
  {
    hide Better, Judged;
    if Trimmed(policy.pinned) && policy.pinned == "" && policy.mode != GithubLatest {
      SemverIsUnique(s, policy.channel, current, releases, a, b);
    }
  }

  lemma SemverIsUnique(s: Scheme, channel: Channel, current: string, releases: seq<Release>, a: Decision, b: Decision)
    requires Lawful(s) && SemverDecides(s, channel, current, releases, a) && SemverDecides(s, channel, current, releases, b)
    ensures a == b
  {
    hide Better, Judged;
    forall x, y | Best(s, channel, releases, x) && Best(s, channel, releases, y) ensures x == y {
      BestIsUnique(s, channel, releases, releases, x, y);
    }
  }

  /** The highest eligible version; a downgrade is refused. */
  method SelectSemver(s: Scheme, channel: Channel, current: string, releases: seq<Release>) returns (d: Decision)
    requires Lawful(s)
    ensures SemverDecides(s, channel, current, releases, d)
    // What is selected is eligible, none that is eligible is higher, and of equals it is the first in the alphabet.
    ensures d != Refused ==>
              && (exists r :: r in releases && r.tag == d.candidate && !r.draft && r.tag != "" && s.semantic(r.tag)
                    && (channel == Stable ==> !r.prerelease && !s.pre(r.tag)))
              && (forall r :: (r in releases && !r.draft && r.tag != "" && s.semantic(r.tag)
                               && (channel == Stable ==> !r.prerelease && !s.pre(r.tag))) ==>
                      s.compare(r.tag, d.candidate) <= 0
                      && (s.compare(r.tag, d.candidate) == 0 ==> !Less(r.tag, d.candidate)))
    // It is activated over a baseline or a lower version, and kept as an equal one.
    ensures d.Activate? ==> Baseline(current) || (s.semantic(current) && s.compare(d.candidate, current) > 0)
    ensures d.Keep? ==> !Baseline(current) && s.semantic(current) && s.compare(d.candidate, current) == 0
    // Refused is an empty choice, an active tag that is no version, and a downgrade.
    ensures d == Refused <==>
              (!Baseline(current) && !s.semantic(current))
              || forall r :: (r in releases && !r.draft && r.tag != "" && s.semantic(r.tag)
                              && (channel == Stable ==> !r.prerelease && !s.pre(r.tag))) ==>
                     !Baseline(current) && s.compare(r.tag, current) < 0
  {
    hide Better, Judged;
    var selected := "";
    for i := 0 to |releases|
      invariant selected == "" ==> forall r :: r in releases[..i] ==> !Eligible(s, channel, r)
      invariant selected != "" ==> Best(s, channel, releases[..i], selected)
    {
      var r := releases[i];
      assert releases[..i + 1] == releases[..i] + [r];
      if Eligible(s, channel, r) {
        if selected == "" || Better(s, r.tag, selected) {
          BestSoFar(s, channel, releases[..i], selected, r);
          selected := r.tag;
        }
      }
    }
    assert releases[..|releases|] == releases;
    if selected == "" {
      return Refused;
    }
    d := Judged(s, current, selected);
    JudgedSpelledOut(s, channel, current, releases, selected);
  }

  lemma LowerStaysLower(s: Scheme, a: string, b: string, c: string)
    requires Lawful(s) && s.compare(a, b) <= 0 && s.compare(b, c) < 0
    ensures s.compare(a, c) < 0
  {
    assert s.compare(c, a) <= 0 ==> s.compare(c, b) <= 0;
  }

  lemma JudgedSpelledOut(s: Scheme, channel: Channel, current: string, releases: seq<Release>, best: string)
    requires Lawful(s) && Best(s, channel, releases, best)
    ensures forall r :: r in releases && Eligible(s, channel, r) ==>
              s.compare(r.tag, best) <= 0 && (s.compare(r.tag, best) == 0 ==> !Less(r.tag, best))
    ensures var d := Judged(s, current, best);
            && (d != Refused ==> d.candidate == best)
            && (d.Activate? ==> Baseline(current) || (s.semantic(current) && s.compare(best, current) > 0))
            && (d.Keep? ==> !Baseline(current) && s.semantic(current) && s.compare(best, current) == 0)
            && (d == Refused <==>
                  !Baseline(current)
                  && (!s.semantic(current)
                      || forall r :: r in releases && Eligible(s, channel, r) ==> s.compare(r.tag, current) < 0))
  {
    var r :| r in releases && Eligible(s, channel, r) && r.tag == best;
    if s.compare(best, current) < 0 {
      forall o | o in releases && Eligible(s, channel, o) ensures s.compare(o.tag, current) < 0 {
        LowerStaysLower(s, o.tag, best, current);
      }
    }
  }

  lemma BestSoFar(s: Scheme, channel: Channel, before: seq<Release>, selected: string, r: Release)
    requires Lawful(s) && Eligible(s, channel, r)
    requires if selected == "" then forall o :: o in before ==> !Eligible(s, channel, o)
             else Best(s, channel, before, selected) && Better(s, r.tag, selected)
    ensures Best(s, channel, before + [r], r.tag)
  {
    LessIsStrict(r.tag);
    forall o | o in before + [r] && Eligible(s, channel, o) ensures !Better(s, o.tag, r.tag) {
      if o != r {
        assert o in before;
        LessIsTotal(selected, r.tag);
        BetterIsTransitive(s, r.tag, selected, o.tag);
      }
    }
  }

  /** The first release that is not a draft, nor a pre-release unless those are wanted. */
  method SelectLegacy(channel: Channel, current: string, releases: seq<Release>) returns (d: Decision)
    ensures LegacyDecides(channel, current, releases, d)
    ensures d == Refused <==> forall r :: r in releases ==> r.draft || r.tag == "" || (channel == Stable && r.prerelease)
    // The first release that is no draft, has a name, and is no pre-release unless those are wanted.
    ensures forall i :: (0 <= i < |releases|
                         && !releases[i].draft && releases[i].tag != "" && (channel == Stable ==> !releases[i].prerelease)
                         && (forall j :: 0 <= j < i ==>
                               releases[j].draft || releases[j].tag == "" || (channel == Stable && releases[j].prerelease))) ==>
              d == if releases[i].tag == current then Keep(current) else Activate(releases[i].tag)
  {
    hide LegacyDecides;
    for i := 0 to |releases|
      invariant forall j :: 0 <= j < i ==> !Listed(channel, releases[j])
    {
      if Listed(channel, releases[i]) {
        d := if releases[i].tag == current then Keep(current) else Activate(releases[i].tag);
        LegacyAt(channel, current, releases, d, i);
        return;
      }
    }
    d := Refused;
    LegacyAt(channel, current, releases, d, |releases|);
  }

  /** The decision when the first listed release is the `i`-th, or there is none. */
  lemma LegacyAt(channel: Channel, current: string, releases: seq<Release>, d: Decision, i: nat)
    requires i <= |releases| && forall j :: 0 <= j < i ==> !Listed(channel, releases[j])
    requires if i == |releases| then d == Refused
             else Listed(channel, releases[i])
                  && d == (if releases[i].tag == current then Keep(current) else Activate(releases[i].tag))
    ensures LegacyDecides(channel, current, releases, d)
    ensures d == Refused <==> forall r :: r in releases ==> r.draft || r.tag == "" || (channel == Stable && r.prerelease)
    ensures forall k :: (0 <= k < |releases|
                         && !releases[k].draft && releases[k].tag != "" && (channel == Stable ==> !releases[k].prerelease)
                         && (forall j :: 0 <= j < k ==>
                               releases[j].draft || releases[j].tag == "" || (channel == Stable && releases[j].prerelease))) ==>
              k == i
  {
    if i < |releases| {
      assert releases[i] in releases && Listed(channel, releases[i]);
    }
    forall r | r in releases && d == Refused ensures !Listed(channel, r) {
      var j :| 0 <= j < |releases| && releases[j] == r;
    }
    forall k | 0 <= k < |releases| && Listed(channel, releases[k]) && k != i
      ensures exists j :: 0 <= j < k && Listed(channel, releases[j])
    {
      assert i < k;
    }
  }

  predicate Listed(channel: Channel, r: Release)
  {
    !r.draft && r.tag != "" && (channel == Stable ==> !r.prerelease)
  }

  /** The pinned release, wherever it is in the order; the first of its name must not be a draft. */
  method SelectPin(pin: string, current: string, releases: seq<Release>) returns (d: Decision)
    requires pin != ""
    ensures PinDecides(pin, current, releases, d)
    ensures pin == current ==> d == Keep(pin)
    // The first release of that name decides.
    ensures forall i :: (0 <= i < |releases| && pin != current && releases[i].tag == pin
                         && (forall j :: 0 <= j < i ==> releases[j].tag != pin)) ==>
              d == if releases[i].draft then Refused else Activate(pin)
    ensures pin != current && (forall r :: r in releases ==> r.tag != pin) ==> d == Refused
    ensures pin != current && (exists r :: r in releases && r.tag == pin) && (forall r :: r in releases ==> !r.draft) ==>
              d == Activate(pin)
  {
    hide PinDecides;
    if pin == current {
      PinKept(pin, releases);
      return Keep(pin);
    }
    for i := 0 to |releases|
      invariant forall j :: 0 <= j < i ==> releases[j].tag != pin
    {
      if releases[i].tag == pin {
        d := if releases[i].draft then Refused else Activate(pin);
        PinAt(pin, current, releases, d, i);
        return;
      }
    }
    d := Refused;
    PinAt(pin, current, releases, d, |releases|);
  }

  lemma PinKept(pin: string, releases: seq<Release>)
    ensures PinDecides(pin, pin, releases, Keep(pin))
  {}

  /** The decision when the first release of the pinned name is the `i`-th, or there is none. */
  lemma PinAt(pin: string, current: string, releases: seq<Release>, d: Decision, i: nat)
    requires pin != "" && pin != current
    requires i <= |releases| && forall j :: 0 <= j < i ==> releases[j].tag != pin
    requires if i == |releases| then d == Refused
             else releases[i].tag == pin && d == (if releases[i].draft then Refused else Activate(pin))
    ensures PinDecides(pin, current, releases, d)
    ensures forall k :: (0 <= k < |releases| && releases[k].tag == pin
                         && (forall j :: 0 <= j < k ==> releases[j].tag != pin)) ==> k == i
    ensures (forall r :: r in releases ==> r.tag != pin) ==> d == Refused
    ensures (exists r :: r in releases && r.tag == pin) && (forall r :: r in releases ==> !r.draft) ==> d == Activate(pin)
  {
    if i < |releases| {
      assert releases[i] in releases;
    }
    if r :| r in releases && r.tag == pin {
      var k :| 0 <= k < |releases| && releases[k] == r;
      assert i < |releases|;
    }
  }

  /** A release is activated only when it is there, is no draft, and differs from what is active. */
  method Select(s: Scheme, policy: UpdatePolicy, current: string, releases: seq<Release>) returns (d: Decision)
    requires Lawful(s)
    ensures Decides(s, policy, current, releases, d)
    ensures d.Activate? ==> d.candidate != current && exists r :: r in releases && r.tag == d.candidate && !r.draft
    ensures policy.pinned == current != "" && Trimmed(policy.pinned) ==> d == Keep(current)
    // A pin decides alone; without one no version is replaced by a lower or equal one, unless latest is asked for.
    ensures policy.pinned != "" && d != Refused ==> d.candidate == policy.pinned
    ensures policy.pinned == "" && policy.mode == Semver && d.Activate? && !Baseline(current) ==>
              s.semantic(current) && s.compare(d.candidate, current) > 0
  {
    if !Trimmed(policy.pinned) {
      return Refused;
    }
    if policy.pinned != "" {
      d := SelectPin(policy.pinned, current, releases);
    } else if policy.mode == GithubLatest {
      d := SelectLegacy(policy.channel, current, releases);
    } else {
      d := SelectSemver(s, policy.channel, current, releases);
    }
    if d.Activate? {
      ActivatedDiffers(s, policy, current, releases, d);
    }
  }

  predicate Trimmed(pin: string)
  {
    pin != "" ==> !Versions.Space(pin[0]) && !Versions.Space(pin[|pin| - 1])
  }

  /** Whatever the policy, only a listed release that is no draft and not active already is activated. */
  lemma ActivatedDiffers(s: Scheme, policy: UpdatePolicy, current: string, releases: seq<Release>, d: Decision)
    requires Lawful(s) && Decides(s, policy, current, releases, d) && d.Activate?
    ensures d.candidate != current && exists r :: r in releases && r.tag == d.candidate && !r.draft
  {
    if Trimmed(policy.pinned) && policy.pinned == "" && policy.mode != GithubLatest {
      var r :| r in releases && Best(s, policy.channel, releases, r.tag) && d == Judged(s, current, r.tag);
      assert s.compare(r.tag, r.tag) == 0;
    }
  }
}
