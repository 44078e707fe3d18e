/** internal/domain/model/storage.go: the WF_STORAGE_ / WF_BACKUP_ variables, found in a
    text, parsed and printed. A `char` is a code point: the patterns are ASCII, so that reading
    bytes finds the same, and what ToLower makes of one that is not ASCII, none matches unless
    LowerChar says so. */
module StorageVars {
  import opened Common
  import opened Order
  import VarRef

  const STORAGE_PREFIX := "WF_STORAGE_"
  const BACKUP_PREFIX := "WF_BACKUP_"

  const FIELDS: seq<string> :=
    ["TYPE", "PREFIX", "PATH", "ENDPOINT", "REGION", "BUCKET", "ACCESS_KEY_ID", "SECRET_ACCESS_KEY"]

  /** [A-Z0-9_] */
  predicate IsVarChar(c: char) { 'A' <= c <= 'Z' || '0' <= c <= '9' || c == '_' }

  predicate HasSuffix(s: string, suffix: string) {
    |suffix| <= |s| && s[|s| - |suffix|..] == suffix
  }

  // ---- Printing and parsing one variable ----

  /** storageNameRE: 1 to 32 of [a-z0-9-], a hyphen neither first nor last. */
  predicate ValidName(name: string) {
    && 1 <= |name| <= 32
    && (forall i :: 0 <= i < |name| ==> IsWord(name[i]) || name[i] == '-')
    && name[0] != '-' && name[|name| - 1] != '-'
  }

  /** One of [a-z0-9], or two with at most 30 of [a-z0-9-] between them. */
  lemma ValidNameIs(name: string)
    ensures ValidName(name) <==>
            (|name| == 1 && IsWord(name[0])) || exists c, mid, d :: Ends(name, c, mid, d)
  {
    if ValidName(name) && |name| > 1 {
      var c, mid, d := name[0], name[1..|name| - 1], name[|name| - 1];
      assert name == [c] + mid + [d];
      assert Ends(name, c, mid, d);
    }
    if c, mid, d :| Ends(name, c, mid, d) {
      forall i | 0 <= i < |name| ensures IsWord(name[i]) || name[i] == '-' {
        if 0 < i < |name| - 1 { assert name[i] == mid[i - 1]; }
      }
    }
  }

  ghost predicate Ends(name: string, c: char, mid: string, d: char) {
    && name == [c] + mid + [d] && IsWord(c) && IsWord(d) && |mid| <= 30
    && forall i :: 0 <= i < |mid| ==> IsWord(mid[i]) || mid[i] == '-'
  }

  function VarToken(name: string): string {
    seq(|name|, i requires 0 <= i < |name| => UpperChar(if name[i] == '-' then '_' else name[i]))
  }

  function TokenName(token: string): string {
    seq(|token|, i requires 0 <= i < |token| => LowerChar(if token[i] == '_' then '-' else token[i]))
  }

  datatype Kind = Storage | Backup

  datatype Ref = Ref(variable: string, kind: Kind, name: string, field: string)

  datatype Parsed = Ok(ref: Ref) | NotStorageVariable | BadStorageVariable | BadBackupVariable

  function Prefix(kind: Kind): string { if kind == Storage then STORAGE_PREFIX else BACKUP_PREFIX }

  /** StorageVarName and BackupVarName. */
  function VarName(kind: Kind, name: string, field: string): string {
    Prefix(kind) + (VarToken(name) + "_" + field)
  }

  datatype Split = Split(token: string, field: string) | NoSplit

  predicate Fits(s: string, f: string) { HasSuffix(s, "_" + f) && |s| > 1 + |f| }

  function Cut(s: string, f: string): Split
    requires Fits(s, f)
  {
    Split(s[..|s| - 1 - |f|], f)
  }

  /** Cuts the first of the fields that fits off the end. */
  function SplitBy(fields: seq<string>, s: string): Split {
    if fields == [] then NoSplit
    else if Fits(s, fields[0]) then Cut(s, fields[0])
    else SplitBy(fields[1..], s)
  }

  method SplitField(s: string) returns (r: Split)
    ensures r == SplitBy(FIELDS, s)
    ensures forall t, f :: r == Split(t, f) <==> Splits(s, t, f)
  {
    r := NoSplit;
    for i := 0 to |FIELDS|
      invariant SplitBy(FIELDS, s) == SplitBy(FIELDS[i..], s)
    {
      if Fits(s, FIELDS[i]) {
        r := Cut(s, FIELDS[i]);
        break;
      }
    }
    forall t, f ensures r == Split(t, f) <==> Splits(s, t, f) { SplitIsTheOnlyOne(s, t, f); }
  }

  /** s is a non-empty token, "_" and a known field. */
  ghost predicate Splits(s: string, token: string, field: string) {
    token != "" && field in FIELDS && s == token + "_" + field
  }

  function ParseRest(kind: Kind, v: string, rest: string): Parsed {
    match SplitBy(FIELDS, rest)
    case Split(token, field) =>
      if ValidName(TokenName(token)) then Ok(Ref(v, kind, TokenName(token), field)) else Bad(kind)
    case NoSplit => Bad(kind)
  }

  function Bad(kind: Kind): Parsed { if kind == Backup then BadBackupVariable else BadStorageVariable }

  function ParseStorageRef(v: string): Parsed {
    if BACKUP_PREFIX <= v then ParseRest(Backup, v, v[|BACKUP_PREFIX|..])
    else if STORAGE_PREFIX <= v then ParseRest(Storage, v, v[|STORAGE_PREFIX|..])
    else NotStorageVariable
  }

  /** No two fields fit one variable: their last or second last characters differ. */
  lemma OneFieldFits(s: string, f: string, g: string)
    requires f in FIELDS && g in FIELDS && HasSuffix(s, "_" + f) && HasSuffix(s, "_" + g)
    ensures f == g
  {
    EndsLike(s, f);
    EndsLike(s, g);
    LastTwo(f);
    LastTwo(g);
  }

  lemma EndsLike(s: string, f: string)
    requires |f| >= 2 && HasSuffix(s, "_" + f)
    ensures |s| > |f| && s[|s| - 1] == f[|f| - 1] && s[|s| - 2] == f[|f| - 2]
  {
    var t := "_" + f;
    var u := s[|s| - |t|..];
    assert u[|u| - 1] == s[|s| - 1] && u[|u| - 2] == s[|s| - 2];
  }

  lemma LastTwo(f: string)
    requires f in FIELDS
    ensures |f| >= 2
    ensures f == match f[|f| - 1]
                 case 'E' => FIELDS[0] case 'X' => FIELDS[1] case 'H' => FIELDS[2] case 'N' => FIELDS[4]
                 case 'D' => FIELDS[6] case 'Y' => FIELDS[7]
                 case _ => if f[|f| - 2] == 'N' then FIELDS[3] else FIELDS[5]
  {
  }

  lemma {:induction false} SplitFinds(fields: seq<string>, s: string)
    ensures match SplitBy(fields, s)
            case NoSplit => forall f :: f in fields ==> !Fits(s, f)
            case Split(t, f) => f in fields && Fits(s, f) && t == s[..|s| - 1 - |f|]
  {
    if fields != [] { SplitFinds(fields[1..], s); }
  }

  lemma Concatenated(s: string, t: string, f: string)
    ensures s == t + "_" + f <==> HasSuffix(s, "_" + f) && t == s[..|s| - 1 - |f|]
  {
    var u := "_" + f;
    assert t + "_" + f == t + u;
    if HasSuffix(s, u) { assert s == s[..|s| - |u|] + s[|s| - |u|..]; }
    if s == t + u { assert s[|s| - |u|..] == u && s[..|s| - |u|] == t; }
  }

  lemma SplitIsTheOnlyOne(s: string, t: string, f: string)
    ensures SplitBy(FIELDS, s) == Split(t, f) <==> Splits(s, t, f)
  {
    SplitFinds(FIELDS, s);
    Concatenated(s, t, f);
    if Splits(s, t, f) { OneFieldFits(s, SplitBy(FIELDS, s).field, f); }
  }

  /** r is what v stands for: a prefix, a token that names a valid storage, a known field. */
  ghost predicate Means(v: string, r: Ref, token: string) {
    && r.variable == v && r.name == TokenName(token) && ValidName(r.name)
    && Splits(token + "_" + r.field, token, r.field)
    && v == Prefix(r.kind) + (token + "_" + r.field)
  }

  lemma ParseRestMeans(kind: Kind, v: string, rest: string, r: Ref)
    requires v == Prefix(kind) + rest
    ensures ParseRest(kind, v, rest) == Ok(r) <==> r.kind == kind && exists token :: Means(v, r, token)
  {
    if ParseRest(kind, v, rest) == Ok(r) {
      var split := SplitBy(FIELDS, rest);
      SplitIsTheOnlyOne(rest, split.token, split.field);
      assert Means(v, r, split.token);
    }
    if r.kind == kind && exists token :: Means(v, r, token) {
      var token :| Means(v, r, token);
      assert v[|Prefix(kind)|..] == rest == token + "_" + r.field;
      SplitIsTheOnlyOne(rest, token, r.field);
    }
  }

  lemma PrefixesDiffer(rest: string)
    ensures !(BACKUP_PREFIX <= STORAGE_PREFIX + rest) && !(STORAGE_PREFIX <= BACKUP_PREFIX + rest)
    ensures forall kind :: Prefix(kind) <= Prefix(kind) + rest && (Prefix(kind) + rest)[|Prefix(kind)|..] == rest
  {
    assert (STORAGE_PREFIX + rest)[3] != BACKUP_PREFIX[3] && (BACKUP_PREFIX + rest)[3] != STORAGE_PREFIX[3];
  }

  lemma ParsesAfterPrefix(kind: Kind, rest: string)
    ensures ParseStorageRef(Prefix(kind) + rest) == ParseRest(kind, Prefix(kind) + rest, rest)
  {
    PrefixesDiffer(rest);
  }

  /** What parses: exactly a prefix, a token naming a valid storage, and a known field. */
  lemma ParsedIffWellFormed(v: string, r: Ref)
    ensures ParseStorageRef(v) == Ok(r) <==> exists token :: Means(v, r, token)
  {
    if ParseStorageRef(v) == Ok(r) {
      var rest := v[|Prefix(r.kind)|..];
      assert v == Prefix(r.kind) + rest;
      ParseRestMeans(r.kind, v, rest, r);
    }
    if token :| Means(v, r, token) {
      var rest := token + "_" + r.field;
      ParsesAfterPrefix(r.kind, rest);
      ParseRestMeans(r.kind, v, rest, r);
    }
  }

  lemma TokenRoundTrip(name: string)
    requires ValidName(name)
    ensures TokenName(VarToken(name)) == name
    ensures forall i :: 0 <= i < |name| ==> IsVarChar(VarToken(name)[i])
  {
  }

  /** Printing then parsing gives back the kind, the name and the field. */
  lemma ParsePrinted(kind: Kind, name: string, field: string)
    requires ValidName(name) && field in FIELDS
    ensures var v := VarName(kind, name, field); ParseStorageRef(v) == Ok(Ref(v, kind, name, field))
  {
    var v := VarName(kind, name, field);
    TokenRoundTrip(name);
    assert Means(v, Ref(v, kind, name, field), VarToken(name));
    ParsedIffWellFormed(v, Ref(v, kind, name, field));
  }

  /** So no two storages, backups or fields ever share a variable. */
  lemma VarNamesInjective(k1: Kind, n1: string, f1: string, k2: Kind, n2: string, f2: string)
    requires ValidName(n1) && ValidName(n2) && f1 in FIELDS && f2 in FIELDS
    requires VarName(k1, n1, f1) == VarName(k2, n2, f2)
    ensures k1 == k2 && n1 == n2 && f1 == f2
  {
    ParsePrinted(k1, n1, f1);
    ParsePrinted(k2, n2, f2);
  }

  /** As documented. */
  lemma DocumentedNames()
    ensures VarName(Storage, "backup-disk", "PATH") == "WF_STORAGE_BACKUP_DISK_PATH"
    ensures VarName(Backup, "database", "SECRET_ACCESS_KEY") == "WF_BACKUP_DATABASE_SECRET_ACCESS_KEY"
  {
    DiskName();
    DatabaseName();
    hide VarName;
  }

  lemma DiskName()
    ensures VarName(Storage, "backup-disk", "PATH") == "WF_STORAGE_BACKUP_DISK_PATH"
  {
    TokenIs("backup-disk", "BACKUP_DISK");
    hide VarToken;
  }

  lemma DatabaseName()
    ensures VarName(Backup, "database", "SECRET_ACCESS_KEY") == "WF_BACKUP_DATABASE_SECRET_ACCESS_KEY"
  {
    TokenIs("database", "DATABASE");
    hide VarToken;
  }

  lemma TokenIs(name: string, token: string)
    requires |name| == |token|
    requires forall i :: 0 <= i < |name| ==> UpperChar(if name[i] == '-' then '_' else name[i]) == token[i]
    ensures VarToken(name) == token
  {
  }

  /** And these are the fields. */
  lemma DocumentedFields(f: string)
    ensures f in FIELDS <==>
            f in {"TYPE", "PREFIX", "PATH", "ENDPOINT", "REGION", "BUCKET", "ACCESS_KEY_ID", "SECRET_ACCESS_KEY"}
  {
  }

  ghost predicate AllVarChars(v: string) { forall i :: 0 <= i < |v| ==> IsVarChar(v[i]) }

  lemma FieldsAreVarChars(f: string)
    requires f in FIELDS
    ensures AllVarChars("_" + f)
  {
  }

  /** Parsing then printing gives the variable back exactly when it is written in [A-Z0-9_]:
      the parser also takes lower-case letters and hyphens in the token. */
  lemma PrintParsed(v: string)
    requires ParseStorageRef(v).Ok?
    ensures var r := ParseStorageRef(v).ref; VarName(r.kind, r.name, r.field) == v <==> AllVarChars(v)
  {
    var r := ParseStorageRef(v).ref;
    ParsedIffWellFormed(v, r);
    var token :| Means(v, r, token);
    FieldsAreVarChars(r.field);
    PrefixIsVarChars(r.kind);
    TokenChars(token);
    Rearranged(Prefix(r.kind), token, "_" , r.field);
    Rearranged(Prefix(r.kind), VarToken(r.name), "_" , r.field);
    MiddleChars(Prefix(r.kind), token, "_" + r.field);
    SameMiddle(Prefix(r.kind), VarToken(r.name), token, "_" + r.field);
  }

  lemma Rearranged(a: string, b: string, c: string, d: string)
    ensures a + (b + c + d) == a + b + (c + d)
  {
  }

  lemma PrefixIsVarChars(kind: Kind)
    ensures AllVarChars(Prefix(kind))
  {
  }

  lemma MiddleChars(p: string, m: string, q: string)
    requires AllVarChars(p) && AllVarChars(q)
    ensures AllVarChars(p + m + q) <==> AllVarChars(m)
  {
    var all := p + m + q;
    assert forall i :: 0 <= i < |m| ==> all[|p| + i] == m[i];
  }

  lemma SameMiddle(p: string, m: string, n: string, q: string)
    ensures p + m + q == p + n + q <==> m == n
  {
    if p + m + q == p + n + q {
      assert m == (p + m + q)[|p|..|p + m + q| - |q|];
      assert n == (p + n + q)[|p|..|p + n + q| - |q|];
    }
  }

  lemma TokenChars(token: string)
    requires ValidName(TokenName(token))
    ensures VarToken(TokenName(token)) == token <==> AllVarChars(token)
  {
    var name := TokenName(token);
    assert |name| == |token|;
    forall i | 0 <= i < |token| ensures VarToken(name)[i] == token[i] <==> IsVarChar(token[i]) {
      assert IsWord(name[i]) || name[i] == '-';
    }
  }

  // ---- Finding variables in a text ----

  /** The regular expression at p: `$`, maybe `{`, a prefix and the longest run of at
      least one [A-Z0-9_]; data[s..e] is the captured variable. */
  ghost predicate Match(data: string, p: nat, s: nat, e: nat) {
    && p < |data| && data[p] == '$'
    && s == (if p + 1 < |data| && data[p + 1] == '{' then p + 2 else p + 1)
    && s <= e <= |data| && Captured(data[s..e])
    && (e < |data| ==> !IsVarChar(data[e]))
  }

  /** WF_(STORAGE|BACKUP)_[A-Z0-9_]+ */
  predicate Captured(v: string) {
    && (forall i :: 0 <= i < |v| ==> IsVarChar(v[i]))
    && ((STORAGE_PREFIX <= v && |v| > |STORAGE_PREFIX|) || (BACKUP_PREFIX <= v && |v| > |BACKUP_PREFIX|))
  }

  /** An unescaped match at p captures v. */
  ghost predicate FoundAt(data: string, p: nat, v: string) {
    exists s: nat, e: nat :: Match(data, p, s, e) && v == data[s..e] && VarRef.DollarsBefore(data, p) % 2 == 0
  }

  ghost predicate FoundIn(data: string, v: string) { exists p :: FoundAt(data, p, v) }

  method MatchAt(data: string, p: nat) returns (ok: bool, s: nat, e: nat)
    requires p < |data|
    ensures ok ==> Match(data, p, s, e)
    ensures !ok ==> forall s: nat, e: nat :: !Match(data, p, s, e)
    ensures ok ==> forall s': nat, e': nat :: Match(data, p, s', e') ==> s' == s && e' == e
  {
    s := if p + 1 < |data| && data[p + 1] == '{' then p + 2 else p + 1;
    e := s;
    while e < |data| && IsVarChar(data[e])
      invariant s <= e && (e <= |data| || e == s) && forall k :: s <= k < e ==> IsVarChar(data[k])
    {
      e := e + 1;
    }
    ok := data[p] == '$' && e <= |data| && Captured(data[s..e]);
    forall s': nat, e': nat | Match(data, p, s', e') ensures s' == s && e' == e && ok { MatchRun(data, p, s', e'); }
  }

  lemma MatchRun(data: string, p: nat, s: nat, e: nat)
    requires Match(data, p, s, e)
    ensures forall k :: s <= k < e ==> IsVarChar(data[k])
  {
    forall k | s <= k < e ensures IsVarChar(data[k]) { assert data[s..e][k - s] == data[k]; }
  }

  lemma NoMatchInside(data: string, p: nat, s: nat, e: nat, q: nat)
    requires Match(data, p, s, e) && p < q < e
    ensures data[q] != '$'
  {
    MatchRun(data, p, s, e);
  }

  method CountDollarsBefore(data: string, p: nat) returns (dollars: nat)
    requires p < |data|
    ensures dollars == VarRef.DollarsBefore(data, p)
  {
    dollars := 0;
    var i := p;
    while i > 0 && data[i - 1] == '$'
      invariant 0 <= i <= p
      invariant VarRef.DollarsBefore(data, p) == dollars + VarRef.DollarsBefore(data, i)
    {
      dollars, i := dollars + 1, i - 1;
    }
  }

  /** The names one content references: leftmost matches, none overlapping another. */
  method ScanContent(data: string, seen: set<string>) returns (out: set<string>)
    ensures forall v :: v in out <==> v in seen || FoundIn(data, v)
  {
    out := seen;
    var p := 0;
    while p < |data|
      invariant forall v :: v in out <==> v in seen || exists q: nat :: q < p && FoundAt(data, q, v)
    {
      var ok, s, e := MatchAt(data, p);
      var next := if ok then e else p + 1;
      ghost var was := out;
      var dollars := 0;
      if ok {
        dollars := CountDollarsBefore(data, p);
        if dollars % 2 == 0 { out := out + {data[s..e]}; }
      }
      forall v ensures v in out <==> v in was || exists q: nat :: p <= q < next && FoundAt(data, q, v) {
        ScanStep(data, p, ok, s, e, dollars, v);
      }
      p := next;
    }
  }

  lemma ScanStep(data: string, p: nat, ok: bool, s: nat, e: nat, dollars: nat, v: string)
    requires p < |data|
    requires ok ==> Match(data, p, s, e) && dollars == VarRef.DollarsBefore(data, p)
    requires ok ==> forall s': nat, e': nat :: Match(data, p, s', e') ==> s' == s && e' == e
    requires !ok ==> forall s: nat, e: nat :: !Match(data, p, s, e)
    ensures (exists q: nat :: p <= q < (if ok then e else p + 1) && FoundAt(data, q, v)) <==>
            ok && dollars % 2 == 0 && v == data[s..e]
  {
    if q: nat :| p <= q < (if ok then e else p + 1) && FoundAt(data, q, v) {
      if q > p { NoMatchInside(data, p, s, e, q); }
    }
    if ok && dollars % 2 == 0 && v == data[s..e] { assert FoundAt(data, p, v); }
  }

  /** Sorted, without duplicates, and exactly the unescaped matches of the contents. */
  method ScanStorageRefs(contents: seq<string>) returns (out: seq<string>)
    ensures Increasing(out)
    ensures forall v :: v in out <==> exists i :: 0 <= i < |contents| && FoundIn(contents[i], v)
  {
    var seen: set<string> := {};
    for i := 0 to |contents|
      invariant forall v :: v in seen <==> exists k :: 0 <= k < i && FoundIn(contents[k], v)
    {
      seen := ScanContent(contents[i], seen);
    }
    out := Sort(seen);
    forall v ensures v in out <==> v in seen { assert v in out <==> v in Elems(out); }
  }

  // ---- The two scanners ----

  lemma CapturedNames(v: string)
    requires Captured(v)
    ensures v != "" && VarRef.IsNameStart(v[0]) && forall i :: 0 <= i < |v| ==> VarRef.IsNameChar(v[i])
  {
    assert v[0] == 'W';
    forall i | 0 <= i < |v| ensures VarRef.IsNameChar(v[i]) { assert IsVarChar(v[i]); }
  }

  /** Every storage or backup variable the compose scanner sees is found here too: counting
      the `$` before a match and pairing `$$` from the left give the same verdict. */
  lemma ComposeRefsAreFound(data: string, r: VarRef.Ref)
    requires VarRef.Refers(data, r) && Captured(r.name)
    ensures FoundAt(data, r.at, r.name)
  {
    CapturedNames(r.name);
    var s := if r.at + 1 < |data| && data[r.at + 1] == '{' then r.at + 2 else r.at + 1;
    var e := s + |r.name|;
    assert VarRef.MaximalName(data, s, e) && r.name == data[s..e];
    MaximalStops(data, s, e);
    assert Match(data, r.at, s, e);
    hide VarRef.MaximalName;
    hide Captured;
  }

  lemma MaximalStops(data: string, s: nat, e: nat)
    requires VarRef.MaximalName(data, s, e)
    ensures e < |data| ==> !IsVarChar(data[e])
  {
  }

  /** The matched run starts as a name does, and is one as far as it goes. */
  lemma RunIsName(data: string, p: nat, s: nat, e: nat)
    requires Match(data, p, s, e)
    ensures s < e && VarRef.IsNameStart(data[s]) && forall k :: s <= k < e ==> VarRef.IsNameChar(data[k])
  {
    var v := data[s..e];
    CapturedNames(v);
    assert data[s] == v[0];
    forall k | s <= k < e ensures VarRef.IsNameChar(data[k]) { assert data[k] == v[k - s]; }
  }

  /** The run is a whole name exactly when no lower-case letter follows it. */
  lemma RunIsWholeName(data: string, p: nat, s: nat, e: nat)
    requires Match(data, p, s, e)
    ensures VarRef.MaximalName(data, s, e) <==> (e < |data| ==> !('a' <= data[e] <= 'z'))
  {
    RunIsName(data, p, s, e);
  }

  /** Some reference at p has the name data[s..e]. */
  ghost predicate RefersFrom(data: string, p: nat, s: nat, e: nat)
    requires s <= e <= |data|
  {
    exists r: VarRef.Ref :: VarRef.Refers(data, r) && r.at == p && r.name == data[s..e]
  }

  lemma PlainOf(data: string, r: VarRef.Ref, e: nat)
    requires e == r.at + 1 + |r.name| <= |data| && r.name == data[r.at + 1..e]
    ensures VarRef.PlainForm(data, r) <==> VarRef.MaximalName(data, r.at + 1, e) && !r.defaulted
  {
  }

  lemma BraceOf(data: string, r: VarRef.Ref, e: nat)
    requires e == r.at + 2 + |r.name| <= |data| && data[r.at + 1] == '{' && r.name == data[r.at + 2..e]
    ensures VarRef.BraceForm(data, r) <==>
            VarRef.MaximalName(data, r.at + 2, e) && VarRef.Continues(data, e, VarRef.FORMS)
            && (r.defaulted <==> VarRef.Continues(data, e, VarRef.FALLBACK_FORMS))
  {
  }

  lemma OneForm(data: string, r: VarRef.Ref)
    requires r.at + 1 < |data|
    ensures data[r.at + 1] == '{' ==> !VarRef.PlainForm(data, r)
    ensures data[r.at + 1] != '{' ==> !VarRef.BraceForm(data, r)
  {
  }

  lemma PlainIff(data: string, p: nat, e: nat)
    requires Match(data, p, p + 1, e) && VarRef.DollarsBefore(data, p) % 2 == 0
    ensures RefersFrom(data, p, p + 1, e) <==> VarRef.MaximalName(data, p + 1, e)
  {
    RunIsName(data, p, p + 1, e);
    var v := data[p + 1..e];
    assert VarRef.Live(data, p) && data[p + 1] != '{';
    var plain := VarRef.Ref(p, v, false);
    PlainOf(data, plain, e);
    forall r: VarRef.Ref | r.at == p && r.name == v
      ensures VarRef.Refers(data, r) ==> VarRef.MaximalName(data, p + 1, e)
      ensures r == plain && VarRef.MaximalName(data, p + 1, e) ==> VarRef.Refers(data, r)
    {
      hide VarRef.PlainForm;
      hide VarRef.BraceForm;
      hide VarRef.MaximalName;
      PlainOf(data, r, e);
      OneForm(data, r);
    }
    hide VarRef.Refers;
    hide VarRef.MaximalName;
    hide Match;
  }

  lemma BraceIff(data: string, p: nat, e: nat)
    requires Match(data, p, p + 2, e) && VarRef.DollarsBefore(data, p) % 2 == 0
    ensures RefersFrom(data, p, p + 2, e) <==> VarRef.MaximalName(data, p + 2, e) && VarRef.FormAt(data, e)
  {
    var v := data[p + 2..e];
    assert VarRef.Live(data, p) && data[p + 1] == '{';
    VarRef.FormsAreTheListedOnes(data, e);
    var brace := VarRef.Ref(p, v, VarRef.Continues(data, e, VarRef.FALLBACK_FORMS));
    hide VarRef.Continues;
    forall r: VarRef.Ref | r.at == p && r.name == v
      ensures VarRef.Refers(data, r) ==> VarRef.MaximalName(data, p + 2, e) && VarRef.FormAt(data, e)
      ensures r == brace && VarRef.MaximalName(data, p + 2, e) && VarRef.FormAt(data, e) ==> VarRef.Refers(data, r)
    {
      hide VarRef.PlainForm;
      hide VarRef.BraceForm;
      hide VarRef.MaximalName;
      hide VarRef.FormAt;
      BraceOf(data, r, e);
      OneForm(data, r);
    }
    hide VarRef.Refers;
    hide VarRef.MaximalName;
    hide VarRef.FormAt;
    hide Match;
  }

  /** The other way round, a match is a compose reference of the same name exactly when no
      lower-case letter follows it and, in braces, a legal form does. */
  lemma FoundIsComposeRef(data: string, p: nat, s: nat, e: nat)
    requires Match(data, p, s, e) && VarRef.DollarsBefore(data, p) % 2 == 0
    ensures RefersFrom(data, p, s, e) <==>
            (e < |data| ==> !('a' <= data[e] <= 'z')) && (s == p + 2 ==> VarRef.FormAt(data, e))
  {
    RunIsWholeName(data, p, s, e);
    if s == p + 1 { PlainIff(data, p, e); } else { BraceIff(data, p, e); }
  }

  /** The set form: on every text the first scanner's storage variables are among the second's. */
  lemma ScannersAgree(data: string, v: string)
    requires VarRef.References(data, v) && Captured(v)
    ensures FoundIn(data, v)
  {
    var r :| VarRef.Refers(data, r) && r.name == v;
    ComposeRefsAreFound(data, r);
  }
}
