/** internal/domain/varref/refs.go: the variables compose would interpolate in a text.
    A Go byte is a `char` here; every result holds for all characters. */
module VarRef {

  predicate IsNameStart(c: char) { c == '_' || 'A' <= c <= 'Z' || 'a' <= c <= 'z' }

  predicate IsNameChar(c: char) { IsNameStart(c) || '0' <= c <= '9' }

  /** One reference: where its `$` stands, the name, and whether the form has a fallback. */
  datatype Ref = Ref(at: nat, name: string, defaulted: bool)

  // ---- The grammar ----

  /** data[i..j] is an identifier that cannot be extended to the right. */
  ghost predicate MaximalName(data: string, i: nat, j: nat) {
    && i < j <= |data|
    && IsNameStart(data[i])
    && (forall k :: i <= k < j ==> IsNameChar(data[k]))
    && (j < |data| ==> !IsNameChar(data[j]))
  }

  const FORMS: seq<string> := ["}", ":-", "-", ":?", "?", ":+", "+"]
  const FALLBACK_FORMS: seq<string> := [":-", "-", ":+", "+"]

  ghost predicate Continues(data: string, k: nat, forms: seq<string>) {
    k <= |data| && exists f :: f in forms && f <= data[k..]
  }

  /** How many `$` stand in a row right before p. */
  function DollarsBefore(data: string, p: nat): nat
    requires p <= |data|
  {
    if p == 0 || data[p - 1] != '$' then 0 else 1 + DollarsBefore(data, p - 1)
  }

  /** A `$` at p that no `$` before it escapes. */
  ghost predicate Live(data: string, p: nat) {
    p < |data| && data[p] == '$' && DollarsBefore(data, p) % 2 == 0
  }

  /** The declarative reading of a text: r is a reference of data. */
  ghost predicate Refers(data: string, r: Ref) {
    Live(data, r.at) && (PlainForm(data, r) || BraceForm(data, r))
  }

  ghost predicate PlainForm(data: string, r: Ref) {
    var j := r.at + 1 + |r.name|;
    MaximalName(data, r.at + 1, j) && r.name == data[r.at + 1..j] && !r.defaulted
  }

  ghost predicate BraceForm(data: string, r: Ref) {
    var j := r.at + 2 + |r.name|;
    && r.at + 1 < |data| && data[r.at + 1] == '{'
    && MaximalName(data, r.at + 2, j) && r.name == data[r.at + 2..j]
    && Continues(data, j, FORMS)
    && (r.defaulted <==> Continues(data, j, FALLBACK_FORMS))
  }

  /** data references name; NeedsValue: at least once in a form without a fallback. */
  ghost predicate References(data: string, name: string) {
    exists r :: Refers(data, r) && r.name == name
  }

  ghost predicate NeedsValue(data: string, name: string) {
    exists r :: Refers(data, r) && r.name == name && !r.defaulted
  }

  lemma OneNamePerStart(data: string, i: nat, j: nat, k: nat)
    requires MaximalName(data, i, j) && MaximalName(data, i, k)
    ensures j == k
  {
  }

  /** One position carries at most one reference. */
  lemma OneRefPerDollar(data: string, r: Ref, s: Ref)
    requires Refers(data, r) && Refers(data, s) && r.at == s.at
    ensures r == s
  {
    var i := if data[r.at + 1] == '{' then r.at + 2 else r.at + 1;
    OneNamePerStart(data, i, i + |r.name|, i + |s.name|);
  }

  // ---- The grammar told by texts ----

  /** By code: an upper-case letter, a lower-case one, or the underscore. */
  predicate Letter(c: char) { 65 <= c as int <= 90 || 97 <= c as int <= 122 || c as int == 95 }

  predicate Digit(c: char) { 48 <= c as int <= 57 }

  /** A letter or underscore, then letters, underscores and digits. */
  ghost predicate Identifier(name: string) {
    name != "" && Letter(name[0]) && forall i :: 0 <= i < |name| ==> Letter(name[i]) || Digit(name[i])
  }

  lemma LettersAre(c: char)
    ensures IsNameStart(c) <==> Letter(c)
    ensures IsNameChar(c) <==> Letter(c) || Digit(c)
  {
  }

  lemma NameIsIdentifier(data: string, i: nat, j: nat)
    requires MaximalName(data, i, j)
    ensures Identifier(data[i..j])
  {
    forall k | 0 <= k < j - i ensures Letter(data[i..j][k]) || Digit(data[i..j][k]) { LettersAre(data[i + k]); }
    LettersAre(data[i]);
  }

  /** Every name found is an identifier. */
  lemma FoundNamesAreIdentifiers(data: string, r: Ref)
    requires Refers(data, r)
    ensures Identifier(r.name)
  {
    if PlainForm(data, r) {
      NameIsIdentifier(data, r.at + 1, r.at + 1 + |r.name|);
    } else {
      NameIsIdentifier(data, r.at + 2, r.at + 2 + |r.name|);
    }
  }

  /** What can follow a name: nothing, or a character no identifier has. */
  ghost predicate EndsName(rest: string) { rest == "" || (!Letter(rest[0]) && !Digit(rest[0])) }

  lemma NameStands(pre: string, name: string, rest: string)
    requires Identifier(name) && EndsName(rest)
    ensures MaximalName(pre + name + rest, |pre|, |pre| + |name|)
    ensures (pre + name + rest)[|pre|..|pre| + |name|] == name && (pre + name + rest)[|pre| + |name|..] == rest
  {
    var data := pre + name + rest;
    assert data[|pre|] == name[0];
    LettersAre(name[0]);
    forall k | |pre| <= k < |pre| + |name| ensures IsNameChar(data[k]) {
      assert data[k] == name[k - |pre|];
      LettersAre(data[k]);
    }
    if rest != "" {
      assert data[|pre| + |name|] == rest[0];
      LettersAre(rest[0]);
    }
  }

  /** `$NAME` refers to NAME, whatever ends the name. */
  lemma PlainText(name: string, rest: string)
    requires Identifier(name) && EndsName(rest)
    ensures Refers("$" + name + rest, Ref(0, name, false))
  {
    NameStands("$", name, rest);
  }

  /** `${NAME` and what follows refers to NAME, with a fallback or without, exactly when what follows
      is one of the seven forms. */
  lemma BraceText(name: string, rest: string, defaulted: bool)
    requires Identifier(name) && EndsName(rest)
    ensures Refers("${" + name + rest, Ref(0, name, defaulted)) <==>
            if defaulted then ":-" <= rest || "-" <= rest || ":+" <= rest || "+" <= rest
            else "}" <= rest || ":?" <= rest || "?" <= rest
  {
    var data, e := "${" + name + rest, 2 + |name|;
    NameStands("${", name, rest);
    assert data[0] == '$' && data[1] == '{';
    FormsAreTheListedOnes(data, e);
    assert data[e..] == rest;
    assert |rest| > 0 ==> data[e] == rest[0];
    assert |rest| > 1 ==> data[e + 1] == rest[1];
  }

  /** `$$` is no reference. */
  lemma EscapedText(data: string, p: nat, r: Ref)
    requires p + 1 < |data| && data[p] == data[p + 1] == '$' && Live(data, p) && Refers(data, r)
    ensures r.at != p && r.at != p + 1
  {
    assert DollarsBefore(data, p + 1) == DollarsBefore(data, p) + 1;
  }

  // ---- The scanner ----

  ghost predicate NoName(data: string, i: nat) { i >= |data| || !IsNameStart(data[i]) }

  /** Where the longest identifier at i ends; i if none begins there. */
  method NameEnd(data: string, i: nat) returns (j: nat)
    ensures j == i || MaximalName(data, i, j)
    ensures j == i ==> NoName(data, i)
  {
    if i >= |data| || !IsNameStart(data[i]) { return i; }
    j := i + 1;
    while j < |data| && IsNameChar(data[j])
      invariant i < j <= |data| && forall k :: i <= k < j ==> IsNameChar(data[k])
    {
      j := j + 1;
    }
  }

  predicate FormAt(data: string, k: nat) {
    k < |data| &&
    match data[k]
    case '}' => true
    case '-' => true
    case '?' => true
    case '+' => true
    case ':' => k + 1 < |data| && (data[k + 1] == '-' || data[k + 1] == '?' || data[k + 1] == '+')
    case _ => false
  }

  predicate DefaultAt(data: string, k: nat)
    requires FormAt(data, k)
  {
    match data[k]
    case '-' => true
    case '+' => true
    case ':' => data[k + 1] == '-' || data[k + 1] == '+'
    case _ => false
  }

  /** The switch on one or two bytes tests exactly the listed forms. */
  lemma FormsAreTheListedOnes(data: string, k: nat)
    requires k <= |data|
    ensures FormAt(data, k) <==> Continues(data, k, FORMS)
    ensures FormAt(data, k) ==> (DefaultAt(data, k) <==> Continues(data, k, FALLBACK_FORMS))
  {
    var rest := data[k..];
    if FormAt(data, k) {
      var f := if data[k] == ':' then [':', data[k + 1]] else [data[k]];
      assert f == FORMS[0] || f == FORMS[1] || f == FORMS[2] || f == FORMS[3]
             || f == FORMS[4] || f == FORMS[5] || f == FORMS[6];
      assert f <= rest;
      assert f in FORMS;
      if g :| g in FALLBACK_FORMS && g <= rest { assert g[0] == data[k] && (|g| == 2 ==> g[1] == data[k + 1]); }
      if DefaultAt(data, k) {
        assert f == FALLBACK_FORMS[0] || f == FALLBACK_FORMS[1] || f == FALLBACK_FORMS[2] || f == FALLBACK_FORMS[3];
        assert f in FALLBACK_FORMS;
      }
    }
  }

  /** found holds exactly the references before i. */
  ghost predicate FoundBefore(data: string, found: seq<Ref>, i: nat) {
    && (forall r :: r in found <==> Refers(data, r) && r.at < i)
    && (forall a, b :: 0 <= a < b < |found| ==> found[a].at < found[b].at)
  }

  ghost predicate NoRefIn(data: string, i: nat, j: nat) {
    forall r :: Refers(data, r) && i <= r.at ==> j <= r.at
  }

  lemma PassOver(data: string, found: seq<Ref>, i: nat, j: nat)
    requires FoundBefore(data, found, i) && NoRefIn(data, i, j) && i <= j
    ensures FoundBefore(data, found, j)
  {
  }

  lemma TakeRef(data: string, found: seq<Ref>, r: Ref, j: nat)
    requires FoundBefore(data, found, r.at) && Refers(data, r) && NoRefIn(data, r.at + 1, j) && r.at < j
    ensures FoundBefore(data, found + [r], j)
  {
    forall s ensures s in found + [r] <==> Refers(data, s) && s.at < j {
      if Refers(data, s) && s.at == r.at { OneRefPerDollar(data, r, s); }
    }
    forall a | 0 <= a < |found| ensures found[a].at < r.at { assert found[a] in found; }
  }

  ghost predicate LiveIfDollar(data: string, i: nat) {
    i < |data| && data[i] == '$' ==> Live(data, i)
  }

  ghost predicate Scanned(data: string, found: seq<Ref>, i: nat) {
    i <= |data| && LiveIfDollar(data, i) && FoundBefore(data, found, i)
  }

  // One lemma per branch of the loop.

  lemma StepOverOther(data: string, found: seq<Ref>, i: nat)
    requires Scanned(data, found, i) && i + 1 < |data|
    requires data[i] == '$' ==> data[i + 1] != '$' && data[i + 1] != '{' && NoName(data, i + 1)
    ensures Scanned(data, found, i + 1)
  {
    assert NoRefIn(data, i, i + 1);
    PassOver(data, found, i, i + 1);
  }

  lemma StepOverEscape(data: string, found: seq<Ref>, i: nat)
    requires Scanned(data, found, i) && i + 1 < |data| && data[i] == data[i + 1] == '$'
    ensures Scanned(data, found, i + 2)
  {
    assert DollarsBefore(data, i + 1) == DollarsBefore(data, i) + 1;
    assert NoRefIn(data, i, i + 2);
    PassOver(data, found, i, i + 2);
  }

  /** A brace without a name, or with an illegal form after the name, is no reference. */
  lemma BraceNeedsNameAndForm(data: string, r: Ref, end: nat)
    requires Refers(data, r) && r.at + 1 < |data| && data[r.at + 1] == '{'
    requires if end == r.at + 2 then NoName(data, end) else MaximalName(data, r.at + 2, end)
    ensures end > r.at + 2 && FormAt(data, end)
  {
    if end != r.at + 2 {
      OneNamePerStart(data, r.at + 2, r.at + 2 + |r.name|, end);
      FormsAreTheListedOnes(data, end);
    }
  }

  lemma StepOverBrace(data: string, found: seq<Ref>, i: nat, end: nat)
    requires Scanned(data, found, i) && i + 1 < |data| && data[i] == '$' && data[i + 1] == '{'
    requires if end == i + 2 then NoName(data, end) else MaximalName(data, i + 2, end) && !FormAt(data, end)
    ensures Scanned(data, found, i + 2)
  {
    forall r | Refers(data, r) && i <= r.at ensures i + 2 <= r.at {
      if r.at == i { BraceNeedsNameAndForm(data, r, end); }
    }
    PassOver(data, found, i, i + 2);
  }

  lemma StepBrace(data: string, found: seq<Ref>, i: nat, end: nat)
    requires Scanned(data, found, i) && i + 1 < |data| && data[i] == '$' && data[i + 1] == '{'
    requires MaximalName(data, i + 2, end) && FormAt(data, end)
    ensures Scanned(data, found + [Ref(i, data[i + 2..end], DefaultAt(data, end))], i + 2)
  {
    FormsAreTheListedOnes(data, end);
    var r := Ref(i, data[i + 2..end], DefaultAt(data, end));
    assert BraceForm(data, r);
    assert NoRefIn(data, i + 1, i + 2);
    TakeRef(data, found, r, i + 2);
  }

  lemma StepPlain(data: string, found: seq<Ref>, i: nat, end: nat)
    requires Scanned(data, found, i) && i + 1 < |data| && data[i] == '$' && MaximalName(data, i + 1, end)
    ensures Scanned(data, found + [Ref(i, data[i + 1..end], false)], end)
  {
    var r := Ref(i, data[i + 1..end], false);
    assert PlainForm(data, r);
    forall k | i + 1 <= k < end ensures data[k] != '$' { assert IsNameChar(data[k]); }
    assert NoRefIn(data, i + 1, end);
    TakeRef(data, found, r, end);
  }

  /** Every reference of the text, in order of position, and nothing else. */
  method Scan(data: string) returns (found: seq<Ref>)
    ensures forall r :: r in found <==> Refers(data, r)
    ensures forall a, b :: 0 <= a < b < |found| ==> found[a].at < found[b].at
  {
    found := [];
    var i := 0;
    while i + 1 < |data|
      invariant Scanned(data, found, i)
      decreases |data| - i
    {
      if data[i] != '$' {
        StepOverOther(data, found, i);
        i := i + 1;
      } else if data[i + 1] == '$' {
        StepOverEscape(data, found, i);
        i := i + 2;
      } else if data[i + 1] == '{' {
        var end := NameEnd(data, i + 2);
        if end > i + 2 && FormAt(data, end) {
          StepBrace(data, found, i, end);
          found := found + [Ref(i, data[i + 2..end], DefaultAt(data, end))];
        } else {
          StepOverBrace(data, found, i, end);
        }
        i := i + 2;
      } else {
        var end := NameEnd(data, i + 1);
        if end > i + 1 {
          StepPlain(data, found, i, end);
          found := found + [Ref(i, data[i + 1..end], false)];
          i := end;
        } else {
          StepOverOther(data, found, i);
          i := i + 1;
        }
      }
    }
  }

  /** References: adds every referenced name to the caller's set. */
  method AddReferences(data: string, into: set<string>) returns (names: set<string>)
    ensures forall n :: n in names <==> n in into || References(data, n)
  {
    var found := Scan(data);
    names := into;
    for i := 0 to |found|
      invariant forall n :: n in names <==> n in into || exists k :: 0 <= k < i && found[k].name == n
    {
      names := names + {found[i].name};
    }
    forall n ensures (exists k :: 0 <= k < |found| && found[k].name == n) <==> References(data, n) {
      if References(data, n) { var r :| Refers(data, r) && r.name == n; assert r in found; }
      if k :| 0 <= k < |found| && found[k].name == n { assert found[k] in found; }
    }
  }

  /** Undefaulted: adds the names some reference of which needs a value. */
  method AddUndefaulted(data: string, into: set<string>) returns (names: set<string>)
    ensures forall n :: n in names <==> n in into || NeedsValue(data, n)
  {
    var found := Scan(data);
    names := into;
    for i := 0 to |found|
      invariant forall n :: n in names <==>
              n in into || exists k :: 0 <= k < i && found[k].name == n && !found[k].defaulted
    {
      if !found[i].defaulted { names := names + {found[i].name}; }
    }
    forall n
      ensures (exists k :: 0 <= k < |found| && found[k].name == n && !found[k].defaulted) <==> NeedsValue(data, n)
    {
      if NeedsValue(data, n) { var r :| Refers(data, r) && r.name == n && !r.defaulted; assert r in found; }
      if k :| 0 <= k < |found| && found[k].name == n && !found[k].defaulted { assert found[k] in found; }
    }
  }
}
