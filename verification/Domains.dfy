/** internal/domain/model/domain.go: which registered domain an ingress hostname falls under.
    Lower-casing is a parameter: any function on characters that, like Go's, keeps those a valid
    name is made of and makes no other character a dot or a star. */
module Domains {
  import opened Common

  /** A registration: its name and whatever else it carries. */
  datatype Registration = Registration(name: string, tls: string)

  predicate IsWildcard(name: string) { "*." <= name }

  // ---- Valid names ----

  /** One label of a hostname, section 2.1 of RFC 1123: 1 to 63 of [a-z0-9-], no hyphen at either end. */
  predicate ValidLabel(l: string) {
    && 1 <= |l| <= 63 && IsWord(l[0]) && IsWord(l[|l| - 1])
    && forall i :: 0 <= i < |l| ==> IsWord(l[i]) || l[i] == '-'
  }

  /** Where the first dot is, or the length. */
  function Dot(s: string): (d: nat)
    ensures d <= |s| && (forall i :: 0 <= i < d ==> s[i] != '.') && (d < |s| ==> s[d] == '.')
  {
    if s == [] || s[0] == '.' then 0 else 1 + Dot(s[1..])
  }

  predicate ValidLabels(s: string)
    decreases |s|
  {
    var d := Dot(s);
    ValidLabel(s[..d]) && (d < |s| ==> ValidLabels(s[d + 1..]))
  }

  predicate ValidHostname(h: string) { h != "" && |h| <= 253 && ValidLabels(h) }

  function TrimStar(name: string): string { if IsWildcard(name) then name[2..] else name }

  predicate ValidDomainName(name: string) { |name| <= 253 && ValidHostname(TrimStar(name)) }

  // ---- Valid names, told otherwise ----

  /** Two of [a-z0-9] with at most 61 of [a-z0-9-] between them. */
  ghost predicate Ends(l: string, c: char, mid: string, d: char) {
    && l == [c] + mid + [d] && IsWord(c) && IsWord(d) && |mid| <= 61
    && forall i :: 0 <= i < |mid| ==> IsWord(mid[i]) || mid[i] == '-'
  }

  /** A label is one of [a-z0-9], or two such ends and what is between them. */
  lemma LabelIs(l: string)
    ensures ValidLabel(l) <==> (|l| == 1 && IsWord(l[0])) || exists c, mid, d :: Ends(l, c, mid, d)
  {
    if ValidLabel(l) && |l| > 1 {
      var c, mid, d := l[0], l[1..|l| - 1], l[|l| - 1];
      assert l == [c] + mid + [d];
      assert Ends(l, c, mid, d);
    }
    if c, mid, d :| Ends(l, c, mid, d) {
      forall i | 0 <= i < |l| ensures IsWord(l[i]) || l[i] == '-' { if 0 < i < |l| - 1 { assert l[i] == mid[i - 1]; } }
    }
  }

  function Dotted(labels: seq<string>): string
    requires labels != []
  {
    if |labels| == 1 then labels[0] else labels[0] + "." + Dotted(labels[1..])
  }

  ghost predicate AllValid(labels: seq<string>) {
    labels != [] && forall i :: 0 <= i < |labels| ==> ValidLabel(labels[i])
  }

  lemma {:induction false} LabelsOf(h: string) returns (labels: seq<string>)
    requires ValidLabels(h)
    ensures AllValid(labels) && Dotted(labels) == h
    decreases |h|
  {
    var d := Dot(h);
    if d == |h| {
      assert h[..d] == h;
      labels := [h];
    } else {
      var rest := LabelsOf(h[d + 1..]);
      labels := [h[..d]] + rest;
      DottedMore(h[..d], rest);
      assert h == h[..d] + "." + h[d + 1..];
    }
    hide Dotted;
    hide ValidLabel;
  }

  lemma DottedMore(piece: string, labels: seq<string>)
    requires AllValid(labels) && ValidLabel(piece)
    ensures AllValid([piece] + labels) && Dotted([piece] + labels) == piece + "." + Dotted(labels)
  {
    assert ([piece] + labels)[1..] == labels;
    hide ValidLabel;
  }

  lemma {:induction false} DottedIsValid(labels: seq<string>)
    requires AllValid(labels)
    ensures ValidLabels(Dotted(labels))
  {
    var h, l := Dotted(labels), labels[0];
    assert forall i :: 0 <= i < |l| ==> l[i] != '.';
    if |labels| == 1 {
      NoDot(h);
      assert h[..|h|] == h;
    } else {
      DottedIsValid(labels[1..]);
      DotAt(h, |l|);
      assert h[..|l|] == l && h[|l| + 1..] == Dotted(labels[1..]);
    }
  }

  lemma {:induction false} NoDot(s: string)
    requires forall i :: 0 <= i < |s| ==> s[i] != '.'
    ensures Dot(s) == |s|
  {
    if s != "" { NoDot(s[1..]); }
  }

  /** A hostname is valid labels with dots between, of at most 253 characters. */
  lemma HostnameIs(h: string)
    ensures ValidHostname(h) <==> |h| <= 253 && exists labels :: AllValid(labels) && Dotted(labels) == h
  {
    if ValidHostname(h) { var labels := LabelsOf(h); }
    if labels :| AllValid(labels) && Dotted(labels) == h {
      DottedIsValid(labels);
      assert ValidLabel(labels[0]);
    }
  }

  // ---- Covering ----

  /** What is asked of lower-casing. */
  ghost predicate Lowers(lower: Lower) {
    && (forall c :: IsWord(c) || c == '-' || c == '.' || c == '*' ==> lower(c) == c)
    && (forall c :: lower(c) == '.' ==> c == '.') && (forall c :: lower(c) == '*' ==> c == '*')
  }

  predicate Covers(name: string, host: string, lower: Lower) {
    var n, h := Lowered(name, lower), Lowered(host, lower);
    if !IsWildcard(n) then n == h else
      var d := Dot(h);
      d < |h| && d > 0 && h[d + 1..] == n[2..]
  }

  predicate Exact(r: Registration, host: string, lower: Lower) { !IsWildcard(r.name) && Covers(r.name, host, lower) }

  function FirstExact(regs: seq<Registration>, host: string, lower: Lower): Option<Registration> {
    if regs == [] then None
    else if Exact(regs[0], host, lower) then Some(regs[0])
    else FirstExact(regs[1..], host, lower)
  }

  function LastWildcard(regs: seq<Registration>, host: string, lower: Lower): Option<Registration> {
    if regs == [] then None else
      var r := regs[|regs| - 1];
      if IsWildcard(r.name) && Covers(r.name, host, lower) then Some(r)
      else LastWildcard(regs[..|regs| - 1], host, lower)
  }

  /** The first exact name that covers the host, else the last wildcard that does. */
  function WinnerOf(regs: seq<Registration>, host: string, lower: Lower): Option<Registration> {
    var exact := FirstExact(regs, host, lower);
    if exact.Some? then exact else LastWildcard(regs, host, lower)
  }

  /** An independent reading of who may win: an exact name, else a wildcard. */
  ghost predicate Wins(regs: seq<Registration>, host: string, r: Registration, lower: Lower) {
    && r in regs && Covers(r.name, host, lower)
    && (IsWildcard(r.name) ==> forall s :: s in regs ==> !Exact(s, host, lower))
  }

  method Winning(regs: seq<Registration>, host: string, lower: Lower) returns (r: Option<Registration>)
    ensures r == WinnerOf(regs, host, lower)
    ensures r.Some? ==> Wins(regs, host, r.value, lower)
    ensures r.None? <==> forall i :: 0 <= i < |regs| ==> !Covers(regs[i].name, host, lower)
  {
    WinnerWins(regs, host, lower);
    hide Covers;
    r := None;
    for i := 0 to |regs|
      invariant FirstExact(regs, host, lower) == FirstExact(regs[i..], host, lower)
      invariant r == LastWildcard(regs[..i], host, lower)
    {
      var n := regs[i].name;
      assert regs[i..][1..] == regs[i + 1..] && regs[..i + 1][..i] == regs[..i];
      if Covers(n, host, lower) {
        if !IsWildcard(n) { return Some(regs[i]); }
        r := Some(regs[i]);
      }
    }
    assert regs[..|regs|] == regs;
  }

  lemma {:induction false} FirstExactHolds(regs: seq<Registration>, host: string, lower: Lower)
    ensures match FirstExact(regs, host, lower)
            case None => forall r :: r in regs ==> !Exact(r, host, lower)
            case Some(r) => r in regs && Exact(r, host, lower)
  {
    hide Exact;
    if regs != [] { FirstExactHolds(regs[1..], host, lower); }
  }

  lemma {:induction false} LastWildcardHolds(regs: seq<Registration>, host: string, lower: Lower)
    ensures match LastWildcard(regs, host, lower)
            case None => forall r :: r in regs ==> !(IsWildcard(r.name) && Covers(r.name, host, lower))
            case Some(r) => r in regs && IsWildcard(r.name) && Covers(r.name, host, lower)
  {
    hide Covers;
    if regs != [] { LastWildcardHolds(regs[..|regs| - 1], host, lower); }
  }

  /** Who is found may win, and nobody is found exactly when no name covers the host. */
  lemma WinnerWins(regs: seq<Registration>, host: string, lower: Lower)
    ensures WinnerOf(regs, host, lower).Some? ==> Wins(regs, host, WinnerOf(regs, host, lower).value, lower)
    ensures WinnerOf(regs, host, lower).None? <==> forall i :: 0 <= i < |regs| ==> !Covers(regs[i].name, host, lower)
  {
    hide Covers;
    FirstExactHolds(regs, host, lower);
    LastWildcardHolds(regs, host, lower);
  }

  // ---- With valid, distinct names ----

  ghost predicate ValidRegs(regs: seq<Registration>) {
    && (forall i :: 0 <= i < |regs| ==> ValidDomainName(regs[i].name))
    && (forall i, j :: 0 <= i < j < |regs| ==> regs[i].name != regs[j].name)
  }

  lemma {:induction false} LabelsAreLower(s: string, lower: Lower)
    requires Lowers(lower)
    requires ValidLabels(s)
    ensures Lowered(s, lower) == s
    decreases |s|
  {
    var d := Dot(s);
    if d < |s| {
      LabelsAreLower(s[d + 1..], lower);
      forall i | 0 <= i < |s| ensures lower(s[i]) == s[i] {
        if i < d { assert s[..d][i] == s[i]; }
        if i > d { assert Lowered(s[d + 1..], lower)[i - d - 1] == s[d + 1..][i - d - 1]; }
      }
    } else {
      assert s[..d] == s;
    }
  }

  lemma ValidNamesAreLower(name: string, lower: Lower)
    requires Lowers(lower)
    requires ValidDomainName(name)
    ensures Lowered(name, lower) == name
  {
    LabelsAreLower(TrimStar(name), lower);
    if IsWildcard(name) {
      forall i | 0 <= i < |name| ensures lower(name[i]) == name[i] {
        if i >= 2 { assert Lowered(name[2..], lower)[i - 2] == name[2..][i - 2]; }
      }
    }
  }

  /** Two valid names that cover one host in the same way are one name. */
  lemma OneOfEachKind(n: string, m: string, host: string, lower: Lower)
    requires Lowers(lower)
    requires ValidDomainName(n) && ValidDomainName(m) && Covers(n, host, lower)
    requires Covers(m, host, lower) && (IsWildcard(n) <==> IsWildcard(m))
    ensures n == m
  {
    ValidNamesAreLower(n, lower);
    ValidNamesAreLower(m, lower);
    hide Covers;
    hide ValidDomainName;
    SameSpelling(n, m, host, lower);
  }

  /** At most one wildcard of a valid list covers a host. */
  lemma OneWildcard(regs: seq<Registration>, host: string, i: nat, j: nat, lower: Lower)
    requires Lowers(lower)
    requires ValidRegs(regs) && i < |regs| && j < |regs|
    requires IsWildcard(regs[i].name) && IsWildcard(regs[j].name)
    requires Covers(regs[i].name, host, lower) && Covers(regs[j].name, host, lower)
    ensures i == j
  {
    OneOfEachKind(regs[i].name, regs[j].name, host, lower);
  }

  // ---- When the order of the list does not matter ----

  /** No two different registrations have names that differ in case alone. */
  ghost predicate SpelledOnce(regs: seq<Registration>, lower: Lower) {
    forall a, b :: a in regs && b in regs && Lowered(a.name, lower) == Lowered(b.name, lower) ==> a == b
  }

  lemma ValidRegsSpelledOnce(regs: seq<Registration>, lower: Lower)
    requires Lowers(lower)
    requires ValidRegs(regs)
    ensures SpelledOnce(regs, lower)
  {
    forall a, b | a in regs && b in regs && Lowered(a.name, lower) == Lowered(b.name, lower) ensures a == b {
      var i :| 0 <= i < |regs| && regs[i] == a;
      var j :| 0 <= j < |regs| && regs[j] == b;
      ValidNamesAreLower(a.name, lower);
      ValidNamesAreLower(b.name, lower);
      assert regs[i].name == regs[j].name;
    }
  }

  lemma LowerKeepsKind(name: string, lower: Lower)
    requires Lowers(lower)
    ensures IsWildcard(Lowered(name, lower)) <==> IsWildcard(name)
  {
  }

  lemma SameSpelling(n: string, m: string, host: string, lower: Lower)
    requires Lowers(lower)
    requires Covers(n, host, lower) && Covers(m, host, lower) && (IsWildcard(n) <==> IsWildcard(m))
    ensures Lowered(n, lower) == Lowered(m, lower)
  {
    LowerKeepsKind(n, lower);
    LowerKeepsKind(m, lower);
    if IsWildcard(n) {
      assert Lowered(n, lower) == "*." + Lowered(n, lower)[2..];
      assert Lowered(m, lower) == "*." + Lowered(m, lower)[2..];
    }
  }

  /** A name that is no wildcard covers the hosts spelled like it; "*.s" covers one label, a dot and
      s: neither s itself nor two labels more. */
  lemma CoversIs(name: string, host: string, lower: Lower)
    requires Lowers(lower)
    ensures !IsWildcard(name) ==> (Covers(name, host, lower) <==> Lowered(name, lower) == Lowered(host, lower))
    ensures IsWildcard(name) ==>
              (Covers(name, host, lower) <==>
               exists first :: first != "" && '.' !in first
                               && Lowered(host, lower) == first + "." + Lowered(name[2..], lower))
  {
    LowerKeepsKind(name, lower);
    var n, h := Lowered(name, lower), Lowered(host, lower);
    if IsWildcard(name) {
      assert n[2..] == Lowered(name[2..], lower);
      var d := Dot(h);
      if Covers(name, host, lower) {
        var first := h[..d];
        assert first != "" && '.' !in first && h == first + "." + h[d + 1..];
      }
      if first :| first != "" && '.' !in first && h == first + "." + Lowered(name[2..], lower) {
        DotAt(h, |first|);
        assert h[|first| + 1..] == n[2..];
      }
    }
  }

  /** When names are spelled once, a host has one winner, whatever the order of the list. */
  lemma OneWinner(regs: seq<Registration>, perm: seq<Registration>, host: string, r: Registration, s: Registration,
                  lower: Lower)
    requires Lowers(lower)
    requires SpelledOnce(regs, lower) && multiset(perm) == multiset(regs)
    requires Wins(regs, host, r, lower) && Wins(perm, host, s, lower)
    ensures r == s
  {
    hide Covers;
    forall x ensures x in perm <==> x in regs { assert x in multiset(perm) <==> x in multiset(regs); }
    assert IsWildcard(r.name) ==> !Exact(s, host, lower);
    assert IsWildcard(s.name) ==> !Exact(r, host, lower);
    SameSpelling(r.name, s.name, host, lower);
  }

  lemma SameAnswer(regs: seq<Registration>, perm: seq<Registration>, host: string, lower: Lower)
    requires Lowers(lower)
    requires SpelledOnce(regs, lower) && multiset(perm) == multiset(regs)
    ensures WinnerOf(perm, host, lower) == WinnerOf(regs, host, lower)
  {
    WinnerWins(regs, host, lower);
    WinnerWins(perm, host, lower);
    hide Covers;
    hide WinnerOf;
    forall x ensures x in perm <==> x in regs { assert x in multiset(perm) <==> x in multiset(regs); }
    var r, s := WinnerOf(regs, host, lower), WinnerOf(perm, host, lower);
    if r.Some? && s.Some? { OneWinner(regs, perm, host, r.value, s.value, lower); }
    if r.Some? { var i :| 0 <= i < |perm| && perm[i] == r.value; }
    if s.Some? { var i :| 0 <= i < |regs| && regs[i] == s.value; }
  }

  function MovedFirst(regs: seq<Registration>, i: nat): seq<Registration>
    requires i < |regs|
  {
    [regs[i]] + (regs[..i] + regs[i + 1..])
  }

  function MovedLast(regs: seq<Registration>, i: nat): seq<Registration>
    requires i < |regs|
  {
    regs[..i] + regs[i + 1..] + [regs[i]]
  }

  lemma Moved(regs: seq<Registration>, i: nat)
    requires i < |regs|
    ensures multiset(MovedFirst(regs, i)) == multiset(regs) && multiset(MovedLast(regs, i)) == multiset(regs)
  {
    assert regs == regs[..i] + [regs[i]] + regs[i + 1..];
  }

  function Longest(regs: seq<Registration>): (n: nat)
    ensures forall r :: r in regs ==> |r.name| <= n
  {
    if regs == [] then 0 else
      var n := Longest(regs[1..]);
      if |regs[0].name| > n then |regs[0].name| else n
  }

  lemma {:induction false} DotAt(s: string, d: nat)
    requires d < |s| && s[d] == '.' && forall i :: 0 <= i < d ==> s[i] != '.'
    ensures Dot(s) == d
  {
    if d > 0 { DotAt(s[1..], d - 1); }
  }

  /** A host only a wildcard of the list can cover: its label is longer than any name. */
  function Below(name: string, longest: nat): string
    requires IsWildcard(name)
  {
    seq(longest + 1, _ => 'x') + "." + name[2..]
  }

  lemma CoversBelow(name: string, other: string, longest: nat, lower: Lower)
    requires Lowers(lower)
    requires IsWildcard(name) && Lowered(other, lower) == Lowered(name, lower)
    ensures Covers(other, Below(name, longest), lower) && IsWildcard(other)
  {
    var h := Lowered(Below(name, longest), lower);
    LowerKeepsKind(name, lower);
    LowerKeepsKind(other, lower);
    DotAt(h, longest + 1);
    assert h[longest + 2..] == Lowered(name, lower)[2..];
  }

  /** The host on which two spellings of one name compete. */
  function ContestedHost(regs: seq<Registration>, name: string): string {
    if IsWildcard(name) then Below(name, Longest(regs)) else name
  }

  /** Moved to the right end, a registration wins there. */
  lemma MovedWins(regs: seq<Registration>, i: nat, name: string, lower: Lower)
    requires Lowers(lower)
    requires i < |regs| && Lowered(regs[i].name, lower) == Lowered(name, lower)
    ensures var perm := if IsWildcard(name) then MovedLast(regs, i) else MovedFirst(regs, i);
            multiset(perm) == multiset(regs) && WinnerOf(perm, ContestedHost(regs, name), lower) == Some(regs[i])
  {
    var host := ContestedHost(regs, name);
    Moved(regs, i);
    LowerKeepsKind(name, lower);
    LowerKeepsKind(regs[i].name, lower);
    if IsWildcard(name) {
      var perm := MovedLast(regs, i);
      CoversBelow(name, regs[i].name, Longest(regs), lower);
      forall r | r in perm ensures !Exact(r, host, lower) {
        assert r in multiset(perm) && r in multiset(regs);
        LowerKeepsKind(r.name, lower);
        assert |Lowered(r.name, lower)| < |Lowered(host, lower)|;
      }
      FirstExactHolds(perm, host, lower);
    }
  }

  /** The answer is the same for every order of the list, on every host, exactly when no two
      different registrations share a spelling. */
  lemma OrderIrrelevantIff(regs: seq<Registration>, lower: Lower)
    requires Lowers(lower)
    ensures (forall perm, host :: multiset(perm) == multiset(regs) ==>
               WinnerOf(perm, host, lower) == WinnerOf(regs, host, lower))
            <==> SpelledOnce(regs, lower)
  {
    if SpelledOnce(regs, lower) {
      forall perm, host | multiset(perm) == multiset(regs)
        ensures WinnerOf(perm, host, lower) == WinnerOf(regs, host, lower)
      {
        SameAnswer(regs, perm, host, lower);
      }
    }
    if forall perm, host :: multiset(perm) == multiset(regs) ==>
         WinnerOf(perm, host, lower) == WinnerOf(regs, host, lower) {
      hide WinnerOf;
      forall a, b | a in regs && b in regs && Lowered(a.name, lower) == Lowered(b.name, lower) ensures a == b {
        var i :| 0 <= i < |regs| && regs[i] == a;
        var j :| 0 <= j < |regs| && regs[j] == b;
        MovedWins(regs, i, a.name, lower);
        MovedWins(regs, j, a.name, lower);
      }
    }
  }

  /** Names ValidateDomainName accepts, each registered once, are such a list. */
  lemma ValidOrderIrrelevant(regs: seq<Registration>, perm: seq<Registration>, host: string, lower: Lower)
    requires Lowers(lower)
    requires ValidRegs(regs) && multiset(perm) == multiset(regs)
    ensures WinnerOf(perm, host, lower) == WinnerOf(regs, host, lower)
  {
    ValidRegsSpelledOnce(regs, lower);
    SameAnswer(regs, perm, host, lower);
  }

  /** And it has one exactly when some registration covers it. */
  lemma WinnerIffCovered(regs: seq<Registration>, host: string, lower: Lower)
    ensures (exists r :: Wins(regs, host, r, lower)) <==>
            exists i :: 0 <= i < |regs| && Covers(regs[i].name, host, lower)
  {
    if i :| 0 <= i < |regs| && Covers(regs[i].name, host, lower) {
      if s :| s in regs && Exact(s, host, lower) {
        assert Wins(regs, host, s, lower);
      } else {
        assert Wins(regs, host, regs[i], lower);
      }
    }
    if r :| Wins(regs, host, r, lower) { var i :| 0 <= i < |regs| && regs[i] == r; }
  }

  /** Two spellings of one wildcard, which ValidateDomainName would refuse: the last one wins. */
  lemma SpellingsCompete(lower: Lower, c: char, d: char)
    requires Lowers(lower) && c != d && lower(c) == lower(d)
    ensures var a, b, h := Registration("*." + [c], ""), Registration("*." + [d], ""), "x." + [c];
            WinnerOf([a, b], h, lower) == Some(b) && WinnerOf([b, a], h, lower) == Some(a)
  {
    var a, b, h := Registration("*." + [c], ""), Registration("*." + [d], ""), "x." + [c];
    CoversSpelling(lower, c, c);
    CoversSpelling(lower, c, d);
    hide Covers;
    FirstExactHolds([a, b], h, lower);
    FirstExactHolds([b, a], h, lower);
  }

  lemma CoversSpelling(lower: Lower, c: char, d: char)
    requires Lowers(lower) && lower(c) == lower(d)
    ensures Covers("*." + [d], "x." + [c], lower)
  {
    var n, h := Lowered("*." + [d], lower), Lowered("x." + [c], lower);
    assert n == "*." + [lower(d)] && h == "x." + [lower(c)];
    DotAt(h, 1);
    assert h[2..] == [lower(c)] && n[2..] == [lower(d)];
  }

  /** Two spellings of a name that is no wildcard: the first one wins. */
  lemma FirstSpellingWins(lower: Lower, n: string, m: string)
    requires Lowers(lower) && n != m && Lowered(n, lower) == Lowered(m, lower) && !IsWildcard(n)
    ensures var a, b := Registration(n, ""), Registration(m, "");
            WinnerOf([a, b], n, lower) == Some(a) && WinnerOf([b, a], n, lower) == Some(b)
  {
    LowerKeepsKind(n, lower);
    LowerKeepsKind(m, lower);
  }
}
