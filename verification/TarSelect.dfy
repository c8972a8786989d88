/** The discovery pass over a tar stream: which member is the program, under three budgets. */
module TarSelect {
  import opened Options

  datatype Kind = Folder | Regular | Special

  /** A member header. `base` is the base name of the cleaned path. */
  datatype Header = Header(kind: Kind, name: string, base: string, mode: nat, size: int)

  const MAX_HEADER_ENTRIES := 10000
  const MAX_EXEC_CANDIDATES := 256
  const MAX_DECLARED_BYTES := 0x1_0000_0000
  const TWO_TO_THE_63 := 0x8000_0000_0000_0000
  const TWO_TO_THE_64 := 0x1_0000_0000_0000_0000

  /** Signed 64-bit addition. */
  function Wrap(x: int): (y: int)
    ensures -TWO_TO_THE_63 <= y < TWO_TO_THE_63
    ensures -TWO_TO_THE_63 <= x < TWO_TO_THE_63 ==> y == x
  {
    (x + TWO_TO_THE_63) % TWO_TO_THE_64 - TWO_TO_THE_63
  }

  predicate BaseMatches(base: string, want: string)
  {
    base == want || base == want + ".exe"
  }

  predicate ExecutableLike(h: Header)
  {
    h.mode / 64 % 2 == 1 || h.mode / 8 % 2 == 1 || h.mode % 2 == 1 || '.' !in h.base
  }

  predicate Exact(h: Header, want: string)
  {
    h.kind.Regular? && BaseMatches(h.base, want)
  }

  predicate Candidate(h: Header, want: string)
  {
    h.kind.Regular? && !BaseMatches(h.base, want) && ExecutableLike(h)
  }

  // ---- what the pass decides, without regard to order ----

  function Exacts(hs: seq<Header>, want: string): seq<Header>
  {
    if hs == [] then []
    else Exacts(hs[..|hs| - 1], want) + if Exact(hs[|hs| - 1], want) then [hs[|hs| - 1]] else []
  }

  function Candidates(hs: seq<Header>, want: string): seq<Header>
  {
    if hs == [] then []
    else Candidates(hs[..|hs| - 1], want) + if Candidate(hs[|hs| - 1], want) then [hs[|hs| - 1]] else []
  }

  function Examined(hs: seq<Header>): nat
  {
    if hs == [] then 0 else Examined(hs[..|hs| - 1]) + if hs[|hs| - 1].kind.Folder? then 0 else 1
  }

  function Declared(hs: seq<Header>): int
  {
    if hs == [] then 0 else Declared(hs[..|hs| - 1]) + if hs[|hs| - 1].kind.Regular? then hs[|hs| - 1].size else 0
  }

  /** Header sizes are non-negative 64-bit numbers. */
  predicate Sized(hs: seq<Header>)
  {
    forall h :: h in hs ==> 0 <= h.size < TWO_TO_THE_63
  }

  predicate WithinBudget(hs: seq<Header>)
  {
    Examined(hs) <= MAX_HEADER_ENTRIES && Declared(hs) <= MAX_DECLARED_BYTES
  }

  /** The only exact match, or without one the only executable-looking member. */
  function Select(hs: seq<Header>, want: string): Option<string>
  {
    var exacts, candidates := Exacts(hs, want), Candidates(hs, want);
    if !WithinBudget(hs) || |exacts| > 1 then None
    else if |exacts| == 1 then Some(exacts[0].name)
    else if |candidates| == 1 then Some(candidates[0].name)
    else None
  }

  lemma {:induction false} MoreIsNotLess(hs: seq<Header>, want: string, n: nat)
    requires n <= |hs| && Sized(hs)
    ensures Examined(hs[..n]) <= Examined(hs) && Declared(hs[..n]) <= Declared(hs)
    ensures Exacts(hs[..n], want) <= Exacts(hs, want) && Candidates(hs[..n], want) <= Candidates(hs, want)
    ensures 0 <= Declared(hs[..n])
    decreases |hs|
  {
    if n < |hs| {
      var front := hs[..|hs| - 1];
      assert hs[|hs| - 1] in hs;
      assert front[..n] == hs[..n];
      MoreIsNotLess(front, want, n);
    } else if n > 0 {
      assert hs[..n] == hs && hs[n - 1] in hs;
      MoreIsNotLess(hs[..n - 1], want, n - 1);
      assert hs[..n - 1][..n - 1] == hs[..n - 1];
    }
  }

  /** The next member, and why a budget or a second match it breaks stays broken. */
  lemma OneMore(hs: seq<Header>, want: string, i: nat)
    requires i < |hs| && Sized(hs)
    ensures 0 <= hs[i].size < TWO_TO_THE_63
    ensures Examined(hs[..i + 1]) == Examined(hs[..i]) + (if hs[i].kind.Folder? then 0 else 1)
    ensures Declared(hs[..i + 1]) == Declared(hs[..i]) + (if hs[i].kind.Regular? then hs[i].size else 0)
    ensures Exacts(hs[..i + 1], want) == Exacts(hs[..i], want) + (if Exact(hs[i], want) then [hs[i]] else [])
    ensures Candidates(hs[..i + 1], want)
            == Candidates(hs[..i], want) + (if Candidate(hs[i], want) then [hs[i]] else [])
    ensures !WithinBudget(hs[..i + 1]) || |Exacts(hs[..i + 1], want)| > 1 ==> Select(hs, want) == None
  {
    assert hs[..i + 1][..i] == hs[..i] && hs[..i + 1][i] == hs[i];
    MoreIsNotLess(hs, want, i + 1);
    assert hs[i] in hs;
  }

  /** The only regular member with the name asked for, or without one the only regular member that looks executable. */
  ghost predicate Answers(hs: seq<Header>, want: string, h: Header)
  {
    && h in hs && h.kind.Regular? && multiset(hs)[h] == 1
    && (if h.base in {want, want + ".exe"} then
          forall o :: o in hs && o.kind.Regular? && o.base in {want, want + ".exe"} ==> o == h
        else
          && (h.mode / 64 % 2 == 1 || h.mode / 8 % 2 == 1 || h.mode % 2 == 1 || '.' !in h.base)
          && (forall o :: o in hs && o.kind.Regular? ==> o.base !in {want, want + ".exe"})
          && (forall o :: o in hs && o.kind.Regular? && ExecutableLike(o) ==> o == h))
  }

  /** Selecting by a property keeps the multiplicity of what has it. */
  lemma {:induction false} SelectedCounts(hs: seq<Header>, want: string, h: Header)
    ensures multiset(Exacts(hs, want))[h] == if Exact(h, want) then multiset(hs)[h] else 0
    ensures multiset(Candidates(hs, want))[h] == if Candidate(h, want) then multiset(hs)[h] else 0
  {
    if hs != [] {
      var front, last := hs[..|hs| - 1], hs[|hs| - 1];
      assert hs == front + [last];
      SelectedCounts(front, want, h);
    }
  }

  lemma SelectedMembers(hs: seq<Header>, want: string)
    ensures forall h :: h in Exacts(hs, want) <==> h in hs && Exact(h, want)
    ensures forall h :: h in Candidates(hs, want) <==> h in hs && Candidate(h, want)
  {
    forall h
      ensures h in Exacts(hs, want) <==> h in hs && Exact(h, want)
      ensures h in Candidates(hs, want) <==> h in hs && Candidate(h, want)
    {
      SelectedCounts(hs, want, h);
      assert h in hs <==> h in multiset(hs);
      assert h in Exacts(hs, want) <==> h in multiset(Exacts(hs, want));
      assert h in Candidates(hs, want) <==> h in multiset(Candidates(hs, want));
    }
  }

  lemma {:induction false} SoleMember(hs: seq<Header>, h: Header)
    ensures hs == [h] <==> h in hs && multiset(hs)[h] == 1 && forall o :: o in hs ==> o == h
  {
    if |hs| > 1 {
      assert hs == [hs[0]] + [hs[1]] + hs[2..] && hs[0] in hs && hs[1] in hs;
      assert hs[0] == hs[1] ==> multiset(hs)[hs[0]] > 1;
    } else if |hs| == 1 {
      assert hs == [hs[0]];
    }
  }

  /** Within the budgets there is an answer if and only if a member answers, and it is that one. */
  lemma SelectAnswers(hs: seq<Header>, want: string)
    ensures Select(hs, want).Some? <==> WithinBudget(hs) && exists h :: Answers(hs, want, h)
    ensures forall h :: WithinBudget(hs) && Answers(hs, want, h) ==> Select(hs, want) == Some(h.name)
  {
    hide WithinBudget, Exacts, Candidates;
    SelectedMembers(hs, want);
    var exacts, candidates := Exacts(hs, want), Candidates(hs, want);
    forall h | h in hs ensures Answers(hs, want, h) <==> exacts == [h] || (exacts == [] && candidates == [h]) {
      SelectedCounts(hs, want, h);
      SoleMember(exacts, h);
      SoleMember(candidates, h);
      assert exacts != [] ==> exacts[0] in exacts;
    }
    if |exacts| == 1 {
      assert exacts == [exacts[0]] && exacts[0] in exacts;
      assert Answers(hs, want, exacts[0]);
    } else if exacts == [] && |candidates| == 1 {
      assert candidates == [candidates[0]] && candidates[0] in candidates;
      assert Answers(hs, want, candidates[0]);
    }
  }

  /** The discovery pass. `damaged` says whether the stream breaks off with an error. */
  method FindTarTarget(hs: seq<Header>, damaged: bool, want: string) returns (found: Option<string>)
    requires Sized(hs)
    ensures found == if damaged then None else Select(hs, want)
    // Within the budgets, the answer is the one member that answers, whenever there is one.
    ensures found.Some? <==> !damaged && Examined(hs) <= 10000 && Declared(hs) <= 0x1_0000_0000 && exists h :: Answers(hs, want, h)
    ensures found.Some? ==> forall h :: Answers(hs, want, h) ==> found == Some(h.name)
  {
    found := Discover(hs, damaged, want);
    SelectAnswers(hs, want);
  }

  /** The loop with its counters. */
  method Discover(hs: seq<Header>, damaged: bool, want: string) returns (found: Option<string>)
    requires Sized(hs)
    ensures found == if damaged then None else Select(hs, want)
  {
    var examined, declared := 0, 0;
    var exact: Option<Header> := None;
    var candidates: seq<Header> := [];
    var overflow := false;
    for i := 0 to |hs|
      invariant examined == Examined(hs[..i]) <= MAX_HEADER_ENTRIES
      invariant declared == Declared(hs[..i]) && 0 <= declared <= MAX_DECLARED_BYTES
      invariant Exacts(hs[..i], want) == if exact.Some? then [exact.value] else []
      invariant overflow <==> |Candidates(hs[..i], want)| > MAX_EXEC_CANDIDATES
      invariant !overflow ==> candidates == Candidates(hs[..i], want)
      invariant overflow ==> |candidates| == MAX_EXEC_CANDIDATES
    {
      var h := hs[i];
      OneMore(hs, want, i);
      if h.kind.Folder? {
        continue;
      }
      examined := examined + 1;
      if examined > MAX_HEADER_ENTRIES {
        return None;
      }
      if !h.kind.Regular? {
        continue;
      }
      declared := Wrap(declared + h.size);
      if declared < 0 || declared > MAX_DECLARED_BYTES {
        return None;
      }
      if BaseMatches(h.base, want) {
        if exact.Some? {
          return None;
        }
        exact := Some(h);
        continue;
      }
      if ExecutableLike(h) {
        if |candidates| >= MAX_EXEC_CANDIDATES {
          overflow := true;
          continue;
        }
        candidates := candidates + [h];
      }
    }
    assert hs[..|hs|] == hs;
    if damaged {
      return None;
    }
    if exact.Some? {
      return Some(exact.value.name);
    }
    if overflow || |candidates| != 1 {
      return None;
    }
    found := Some(candidates[0].name);
  }

  // ---- order does not matter ----

  lemma {:induction false} TotalsAdd(a: seq<Header>, b: seq<Header>)
    ensures Examined(a + b) == Examined(a) + Examined(b) && Declared(a + b) == Declared(a) + Declared(b)
  {
    if b == [] {
      assert a + b == a;
    } else {
      assert (a + b)[..|a + b| - 1] == a + b[..|b| - 1];
      TotalsAdd(a, b[..|b| - 1]);
    }
  }

  lemma TotalsExtract(front: seq<Header>, h: Header, back: seq<Header>)
    ensures Examined(front + [h] + back) == Examined(front + back) + Examined([h])
    ensures Declared(front + [h] + back) == Declared(front + back) + Declared([h])
  {
    TotalsAdd(front + [h], back);
    TotalsAdd(front, [h]);
    TotalsAdd(front, back);
  }

  lemma MembersExtract(front: seq<Header>, h: Header, back: seq<Header>)
    ensures multiset(front + [h] + back) == multiset(front + back) + multiset{h}
  {}

  lemma Cancel(x: multiset<Header>, y: multiset<Header>, h: Header)
    requires x + multiset{h} == y + multiset{h}
    ensures x == y
  {
    assert x == x + multiset{h} - multiset{h};
    assert y == y + multiset{h} - multiset{h};
  }

  lemma RestAgrees(h: Header, tail: seq<Header>, front: seq<Header>, back: seq<Header>)
    requires multiset([h] + tail) == multiset(front + [h] + back)
    ensures multiset(tail) == multiset(front + back)
  {
    MembersExtract(front, h, back);
    assert multiset([h] + tail) == multiset{h} + multiset(tail);
    Cancel(multiset(tail), multiset(front + back), h);
  }

  lemma SplitAt(b: seq<Header>, h: Header) returns (front: seq<Header>, back: seq<Header>)
    requires h in b
    ensures b == front + [h] + back
  {
    var i :| 0 <= i < |b| && b[i] == h;
    front, back := b[..i], b[i + 1..];
  }

  lemma {:induction false} TotalsOfPermutation(a: seq<Header>, b: seq<Header>)
    requires multiset(a) == multiset(b)
    ensures Examined(a) == Examined(b) && Declared(a) == Declared(b)
    decreases |a|
  {
    if a == [] {
      assert |multiset(b)| == 0;
    } else {
      var h, tail := a[0], a[1..];
      assert a == [h] + tail && h in multiset(b);
      var front, back := SplitAt(b, h);
      RestAgrees(h, tail, front, back);
      TotalsExtract(front, h, back);
      TotalsAdd([h], tail);
      TotalsOfPermutation(tail, front + back);
    }
  }

  lemma SingletonOf(a: seq<Header>, b: seq<Header>)
    requires multiset(a) == multiset(b)
    ensures |a| == |b| && (|a| == 1 ==> a == b)
  {
    assert |a| == |multiset(a)| == |multiset(b)| == |b|;
    if |a| == 1 {
      assert a[0] in multiset(b);
    }
  }

  /** The same members in any order give the same answer. */
  lemma OrderDoesNotMatter(a: seq<Header>, b: seq<Header>, want: string)
    requires multiset(a) == multiset(b)
    ensures Select(a, want) == Select(b, want)
  {
    TotalsOfPermutation(a, b);
    forall h
      ensures multiset(Exacts(a, want))[h] == multiset(Exacts(b, want))[h]
      ensures multiset(Candidates(a, want))[h] == multiset(Candidates(b, want))[h]
    {
      SelectedCounts(a, want, h);
      SelectedCounts(b, want, h);
    }
    SingletonOf(Exacts(a, want), Exacts(b, want));
    SingletonOf(Candidates(a, want), Candidates(b, want));
  }

  /** An answer is a member of the archive: the one exact match if there is one, however many
      executables there are, else the one executable. */
  lemma AnswerIsUnique(hs: seq<Header>, want: string, h: Header)
    requires Select(hs, want).Some? && h in hs && Exact(h, want)
    ensures Select(hs, want) == Some(h.name) && multiset(hs)[h] == 1
    ensures forall other :: other in hs && Exact(other, want) ==> other == h
  {
    SelectedCounts(hs, want, h);
    assert h in multiset(hs) && h in multiset(Exacts(hs, want));
    assert Exacts(hs, want) == [h];
    forall other | other in hs && Exact(other, want) ensures other == h {
      SelectedCounts(hs, want, other);
      assert other in multiset(hs);
    }
  }
}
