/** What a Cache-Control header says, told from its text (section 5.2 of RFC 9111; for
    lists, section 5.6.1 of RFC 9110). */
module JwksHeader {
  import opened Common
  import opened Jwks

  // ---- Directives ----

  /** The list with commas between. */
  function Listed(ds: seq<string>): string
    requires ds != []
  {
    if |ds| == 1 then ds[0] else ds[0] + "," + Listed(ds[1..])
  }

  ghost predicate NoCommas(ds: seq<string>) { ds != [] && forall i :: 0 <= i < |ds| ==> ',' !in ds[i] }

  lemma {:induction false} CommaAt(s: string, d: nat)
    requires d <= |s| && (d < |s| ==> s[d] == ',') && forall i :: 0 <= i < d ==> s[i] != ','
    ensures Comma(s) == d
  {
    if d > 0 { CommaAt(s[1..], d - 1); }
  }

  lemma FirstPiece(ds: seq<string>)
    requires NoCommas(ds)
    ensures var s, d := Listed(ds), |ds[0]|;
            && Comma(s) == d <= |s| && s[..d] == ds[0] && (|ds| == 1 <==> d == |s|)
            && (d < |s| ==> s[d + 1..] == Listed(ds[1..]) && NoCommas(ds[1..]))
  {
    var s, d := Listed(ds), |ds[0]|;
    if |ds| > 1 { assert s[d] == ','; }
    CommaAt(s, d);
  }

  /** The directives are what stands between the commas. */
  lemma {:induction false} SplitIs(s: string, ds: seq<string>)
    ensures ds == Split(s) <==> NoCommas(ds) && Listed(ds) == s
    decreases |s|
  {
    var d := Comma(s);
    SplitLists(s);
    if NoCommas(ds) && Listed(ds) == s {
      FirstPiece(ds);
      if d < |s| {
        SplitIs(s[d + 1..], ds[1..]);
        assert ds == [s[..d]] + ds[1..];
      } else {
        assert ds == [s];
      }
    }
  }

  lemma {:induction false} SplitLists(s: string)
    ensures NoCommas(Split(s)) && Listed(Split(s)) == s
    decreases |s|
  {
    var d := Comma(s);
    if d == |s| {
      assert s[..d] == s;
    } else {
      SplitLists(s[d + 1..]);
      ListedMore(s[..d], Split(s[d + 1..]));
      assert s == s[..d] + "," + s[d + 1..];
    }
    hide Listed;
  }

  lemma ListedMore(piece: string, ds: seq<string>)
    requires NoCommas(ds) && ',' !in piece
    ensures NoCommas([piece] + ds) && Listed([piece] + ds) == piece + "," + Listed(ds)
  {
    assert ([piece] + ds)[1..] == ds;
  }

  ghost predicate All(s: string, p: char -> bool) { forall i :: 0 <= i < |s| ==> p(s[i]) }

  lemma {:induction false} TrimsLeft(pre: string, core: string, p: char -> bool)
    requires All(pre, p) && (core != "" ==> !p(core[0]))
    ensures TrimLeft(pre + core, p) == core
  {
    if pre == "" {
      assert pre + core == core;
    } else {
      TrimsLeft(pre[1..], core, p);
      assert (pre + core)[1..] == pre[1..] + core;
    }
  }

  lemma {:induction false} TrimsRight(core: string, post: string, p: char -> bool)
    requires All(post, p) && (core != "" ==> !p(core[|core| - 1]))
    ensures TrimRight(core + post, p) == core
  {
    if post == "" {
      assert core + post == core;
    } else {
      var s := core + post;
      TrimsRight(core, post[..|post| - 1], p);
      assert s[..|s| - 1] == core + post[..|post| - 1] && s[|s| - 1] == post[|post| - 1];
    }
  }

  lemma {:induction false} TrimsBlank(s: string, p: char -> bool)
    requires All(s, p)
    ensures TrimLeft(s, p) == ""
  {
    if s != "" { TrimsBlank(s[1..], p); }
  }

  /** A directive, white space around it, is read without it, in lower case. */
  lemma DirectiveIs(pre: string, core: string, post: string)
    requires All(pre, c => IsSpace(c)) && All(post, c => IsSpace(c))
    requires core != "" && !IsSpace(core[0]) && !IsSpace(core[|core| - 1])
    ensures Normal(pre + core + post) == ToLower(core)
  {
    assert pre + core + post == pre + (core + post);
    TrimsLeft(pre, core + post, c => IsSpace(c));
    TrimsRight(core, post, c => IsSpace(c));
  }

  // ---- Numbers ----

  /** s writes n: digits, with a sign or without. */
  ghost predicate Writes(s: string, sign: string, d: string, n: int) {
    && s == sign + d && (sign == "" || sign == "+" || sign == "-") && d != "" && AllDigits(d)
    && n == if sign == "-" then -(Number(d) as int) else Number(d)
  }

  /** What is read as a number writes it, and all that fits in 64 bits is. */
  lemma NumberIs(s: string, n: int)
    ensures ParseInt(s).Some? && ParseInt(s).value as int == n <==>
            -0x8000_0000_0000_0000 <= n <= 0x7FFF_FFFF_FFFF_FFFF && exists sign, d :: Writes(s, sign, d, n)
  {
    if ParseInt(s).Some? && ParseInt(s).value as int == n {
      var sign := if s[0] == '-' || s[0] == '+' then [s[0]] else "";
      assert Writes(s, sign, s[|sign|..], n);
    }
    if sign, d :| Writes(s, sign, d, n) {
      assert IsDigit(d[0]);
      if sign == "" { assert s == d; } else { assert s[0] == sign[0] && s[1..] == d; }
    }
  }

  /** max-age in any case, then a number, in quotes or not, white space around it all. */
  lemma MaxAgeIs(pre: string, key: string, open: string, d: string, close: string, post: string)
    requires All(pre, c => IsSpace(c)) && All(post, c => IsSpace(c)) && ToLower(key) == "max-age="
    requires All(open, c => IsQuote(c)) && All(close, c => IsQuote(c)) && d != "" && AllDigits(d)
    ensures var r := MaxAge(pre + (key + (open + d + close)) + post);
            if Number(d) <= 0x7FFF_FFFF_FFFF_FFFF then r.Some? && r.value as int == Number(d) else r == None
  {
    var x := open + d + close;
    var core := key + x;
    KeyIsVisible(key);
    EndsVisible(open, d, close);
    assert core[0] == key[0] && core[|core| - 1] == x[|x| - 1];
    DirectiveIs(pre, core, post);
    LowerKeeps(x);
    assert ToLower(core) == ToLower(key) + ToLower(x);
    NumberRead(pre + core + post, open, d, close);
  }

  lemma EndsVisible(open: string, d: string, close: string)
    requires All(open, c => IsQuote(c)) && All(close, c => IsQuote(c)) && d != "" && AllDigits(d)
    ensures var x := open + d + close;
            && x != "" && !IsSpace(x[|x| - 1]) && forall i :: 0 <= i < |x| ==> IsDigit(x[i]) || IsQuote(x[i])
  {
    var x := open + d + close;
    forall i | 0 <= i < |x| ensures IsDigit(x[i]) || IsQuote(x[i]) {
      assert x[i] == if i < |open| then open[i] else if i < |open + d| then d[i - |open|] else close[i - |open + d|];
    }
  }

  lemma NumberRead(directive: string, open: string, d: string, close: string)
    requires Normal(directive) == "max-age=" + (open + d + close)
    requires All(open, c => IsQuote(c)) && All(close, c => IsQuote(c)) && d != "" && AllDigits(d)
    ensures var r := MaxAge(directive);
            if Number(d) <= 0x7FFF_FFFF_FFFF_FFFF then r.Some? && r.value as int == Number(d) else r == None
  {
    var n := Normal(directive);
    assert n[|MAX_AGE|..] == open + d + close && MAX_AGE <= n;
    assert n[0] == 'm' && !Forbids(directive);
    assert open + d + close == open + (d + close) && IsDigit(d[0]) && IsDigit(d[|d| - 1]);
    TrimsLeft(open, d + close, c => IsQuote(c));
    TrimsRight(d, close, c => IsQuote(c));
    DigitsRead(d);
    hide Normal;
    hide ParseInt;
  }

  lemma DigitsRead(d: string)
    requires d != "" && AllDigits(d)
    ensures if Number(d) <= 0x7FFF_FFFF_FFFF_FFFF then ParseInt(d).Some? && ParseInt(d).value as int == Number(d)
            else ParseInt(d) == None
  {
    assert IsDigit(d[0]);
  }

  lemma KeyIsVisible(key: string)
    requires ToLower(key) == "max-age="
    ensures |key| == 8 && !IsSpace(key[0])
  {
    assert |ToLower(key)| == 8 && ToLower(key)[0] == 'm';
    assert LowerChar(key[0]) == 'm';
  }

  lemma LowerKeeps(x: string)
    requires forall i :: 0 <= i < |x| ==> LowerChar(x[i]) == x[i]
    ensures ToLower(x) == x
  {
  }

  lemma LowerIs(s: string, t: string)
    requires |s| == |t| && forall i :: 0 <= i < |s| ==> LowerChar(s[i]) == t[i]
    ensures ToLower(s) == t
  {
  }

  /** In any case. */
  lemma AnyCase()
    ensures ToLower("Max-AGE=") == "max-age=" && ToLower("No-Store") == "no-store" && ToLower("NO-CACHE") == "no-cache"
  {
    LowerIs("Max-AGE=", "max-age=");
    LowerIs("No-Store", "no-store");
    LowerIs("NO-CACHE", "no-cache");
  }

  // ---- Whole headers ----

  /** A single max-age is the lifetime, within 5 minutes and a day. */
  lemma MaxAgeAlone(d: string)
    requires d != "" && AllDigits(d) && Number(d) <= 0x7FFF_FFFF_FFFF_FFFF
    ensures var nanos := Number(d) * 1_000_000_000;
            Lifetime(Split("max-age=" + d)) ==
            if nanos < 300_000_000_000 then 300_000_000_000
            else if nanos > 86_400_000_000_000 then 86_400_000_000_000 else nanos
  {
    var s := "max-age=" + d;
    MaxAgeBare(d);
    NoCommaIn(d);
    SplitIs(s, [s]);
    OneDirective(s);
    hide MaxAge;
    hide Split;
    hide Lifetime;
    hide Number;
  }

  lemma MaxAgeBare(d: string)
    requires d != "" && AllDigits(d) && Number(d) <= 0x7FFF_FFFF_FFFF_FFFF
    ensures var r := MaxAge("max-age=" + d);
            r.Some? && r.value as int == Number(d)
  {
    hide MaxAge;
    hide Number;
    hide IsSpace;
    NothingAround("max-age=", d);
    LowerKeeps("max-age=");
    hide ToLower;
    hide AllDigits;
    MaxAgeIs("", "max-age=", "", d, "", "");
  }

  lemma NothingAround(key: string, d: string)
    ensures "" + (key + ("" + d + "")) + "" == key + d
  {
  }

  lemma NoCommaIn(d: string)
    requires AllDigits(d)
    ensures NoCommas(["max-age=" + d]) && Listed(["max-age=" + d]) == "max-age=" + d
  {
    assert forall i :: 0 <= i < |d| ==> IsDigit(d[i]);
  }

  lemma OneDirective(s: string)
    requires MaxAge(s).Some?
    ensures Lifetime([s]) == Clamp(MaxAge(s).value as int)
  {
    assert [s][..0] == [];
    hide Normal;
    hide ParseInt;
  }

  /** no-store or no-cache among the directives gives 5 minutes, whatever else is said. */
  lemma ForbiddingHeader(before: seq<string>, pre: string, core: string, post: string, after: seq<string>)
    requires All(pre, c => IsSpace(c)) && All(post, c => IsSpace(c))
    requires ToLower(core) == "no-store" || ToLower(core) == "no-cache"
    ensures Lifetime(before + [pre + core + post] + after) == 300_000_000_000
  {
    var ds := before + [pre + core + post] + after;
    assert |ToLower(core)| == 8 && ToLower(core)[0] == 'n' && ToLower(core)[7] == 'e';
    assert LowerChar(core[0]) == 'n' && LowerChar(core[7]) == 'e';
    DirectiveIs(pre, core, post);
    assert ds[|before|] == pre + core + post;
    assert Forbids(ds[|before|]);
  }

  /** A header that says nothing of it gives an hour. */
  lemma SilentHeader(ds: seq<string>)
    requires forall i :: 0 <= i < |ds| ==> !Forbids(ds[i]) && MaxAge(ds[i]) == None
    ensures Lifetime(ds) == 3_600_000_000_000
  {
    NoMaxAge(ds);
  }

  lemma {:induction false} NoMaxAge(ds: seq<string>)
    requires forall i :: 0 <= i < |ds| ==> MaxAge(ds[i]) == None
    ensures LastMaxAge(ds) == None
  {
    if ds != [] { NoMaxAge(ds[..|ds| - 1]); }
  }

  /** Of several, the last readable max-age counts. */
  lemma LastCounts(before: seq<string>, d: string, after: seq<string>)
    requires MaxAge(d).Some? && forall i :: 0 <= i < |after| ==> MaxAge(after[i]) == None
    ensures LastMaxAge(before + [d] + after) == MaxAge(d)
  {
    SkipsUnreadable(before + [d], after);
  }

  lemma {:induction false} SkipsUnreadable(before: seq<string>, after: seq<string>)
    requires forall i :: 0 <= i < |after| ==> MaxAge(after[i]) == None
    ensures LastMaxAge(before + after) == LastMaxAge(before)
  {
    hide MaxAge;
    if after == [] {
      assert before + after == before;
    } else {
      var init, d := after[..|after| - 1], after[|after| - 1];
      SkipsUnreadable(before, init);
      SkipsOne(before + init, d);
      assert before + after == before + init + [d];
    }
    hide LastMaxAge;
  }

  lemma SkipsOne(ds: seq<string>, d: string)
    requires MaxAge(d) == None
    ensures LastMaxAge(ds + [d]) == LastMaxAge(ds)
  {
    assert (ds + [d])[..|ds|] == ds;
    hide MaxAge;
  }
}
