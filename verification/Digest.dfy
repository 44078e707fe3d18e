/** internal/domain/catalog/digest.go: the byte stream a file set is hashed over. */
module Digest {
  import opened Common
  import opened Order

  datatype File = File(name: string, content: string)

  const DIGITS := "0123456789"

  /** strconv.Itoa on a length. */
  function Itoa(n: nat): string {
    if n < 10 then [DIGITS[n]] else Itoa(n / 10) + [DIGITS[n % 10]]
  }

  /** What Digest writes for one string: its length, a colon, and the string. */
  function Field(x: string): string { Itoa(|x|) + ":" + x }

  function Record(f: File): string { Field(f.name) + Field(f.content) }

  function Encode(fs: seq<File>): string {
    if fs == [] then [] else Record(fs[0]) + Encode(fs[1..])
  }

  ghost function FilesOf(files: map<string, string>, names: seq<string>): seq<File>
    requires Elems(names) <= files.Keys
  {
    seq(|names|, i requires 0 <= i < |names| => assert names[i] in Elems(names); File(names[i], files[names[i]]))
  }

  /** The stream hashed for a file set. */
  ghost function Stream(files: map<string, string>): string {
    Encode(FilesOf(files, SortedKeys(files.Keys)))
  }

  // ---- Reading it back ----

  function DigitRun(s: string): (k: nat)
    ensures k <= |s| && forall i :: 0 <= i < k ==> IsDigit(s[i])
    ensures k < |s| ==> !IsDigit(s[k])
  {
    if s == [] || !IsDigit(s[0]) then 0 else 1 + DigitRun(s[1..])
  }

  /** One field off the front of a stream: the string and what follows it. */
  function DecodeField(s: string): Option<(string, string)> {
    var k := DigitRun(s);
    if k == |s| || s[k] != ':' then None else
      var n := Number(s[..k]);
      if Itoa(n) != s[..k] || k + 1 + n > |s| then None
      else Some((s[k + 1..k + 1 + n], s[k + 1 + n..]))
  }

  function Decode(s: string): Option<seq<File>>
    decreases |s|
  {
    if s == [] then Some([]) else
      match DecodeField(s)
      case None => None
      case Some((name, rest)) =>
        match DecodeField(rest)
        case None => None
        case Some((content, tail)) =>
          if |tail| >= |s| then None else
          match Decode(tail)
          case None => None
          case Some(fs) => Some([File(name, content)] + fs)
  }

  lemma {:induction false} ItoaDigits(n: nat)
    ensures |Itoa(n)| > 0 && AllDigits(Itoa(n))
  {
    if n >= 10 { ItoaDigits(n / 10); }
  }

  lemma {:induction false} NumberOfItoa(n: nat)
    ensures AllDigits(Itoa(n))
    ensures Number(Itoa(n)) == n
  {
    ItoaDigits(n);
    if n >= 10 {
      NumberOfItoa(n / 10);
      var s := Itoa(n);
      assert s[..|s| - 1] == Itoa(n / 10);
    }
  }

  /** A length is written in decimal, without leading zeros: no other digits stand for it. */
  lemma {:induction false} ItoaIsDecimal(n: nat, d: string)
    ensures d == Itoa(n) <==> d != "" && AllDigits(d) && Number(d) == n && (d[0] == '0' ==> d == "0")
  {
    NumberOfItoa(n);
    ItoaStarts(n);
    if d != "" && AllDigits(d) && Number(d) == n && (d[0] == '0' ==> d == "0") { ItoaOfNumber(d); }
    hide Number;
    hide Itoa;
  }

  lemma {:induction false} ItoaOfNumber(d: string)
    requires d != "" && AllDigits(d) && (d[0] == '0' ==> d == "0")
    ensures d == Itoa(Number(d))
  {
    var init, v := LastDigit(d);
    ItoaPushes(Number(init), v);
    hide Number;
    hide Itoa;
    hide AllDigits;
    if init != "" {
      assert init[0] == d[0] && d != "0" by { assert |d| > 1; }
      OnlyZeroIsZero(init);
      ItoaOfNumber(init);
    }
  }

  lemma LastDigit(d: string) returns (init: string, v: nat)
    requires d != "" && AllDigits(d)
    ensures v < 10 && init == d[..|d| - 1] && d == init + [DIGITS[v]]
    ensures AllDigits(init) && Number(d) == 10 * Number(init) + v && (init == "" ==> Number(init) == 0)
  {
    init := d[..|d| - 1];
    assert IsDigit(d[|d| - 1]);
    v := d[|d| - 1] as int - '0' as int;
    DigitOf(v);
  }

  lemma DigitOf(v: nat)
    requires v < 10
    ensures DIGITS[v] as int == '0' as int + v
  {
  }

  lemma ItoaPushes(m: nat, v: nat)
    requires v < 10
    ensures Itoa(10 * m + v) == if m == 0 then [DIGITS[v]] else Itoa(m) + [DIGITS[v]]
  {
    assert (10 * m + v) / 10 == m && (10 * m + v) % 10 == v;
  }

  lemma {:induction false} ItoaStarts(n: nat)
    ensures |Itoa(n)| > 0 && (Itoa(n)[0] == '0' ==> n == 0 && Itoa(n) == "0")
  {
    if n >= 10 { ItoaStarts(n / 10); }
  }

  lemma {:induction false} OnlyZeroIsZero(d: string)
    requires AllDigits(d) && d != "" && d[0] != '0'
    ensures Number(d) > 0
  {
    if |d| > 1 { OnlyZeroIsZero(d[..|d| - 1]); }
    assert IsDigit(d[|d| - 1]);
  }

  lemma {:induction false} DigitRunStops(d: string, rest: string)
    requires AllDigits(d)
    requires rest == [] || !IsDigit(rest[0])
    ensures DigitRun(d + rest) == |d|
  {
    if d == [] {
      assert d + rest == rest;
    } else {
      assert (d + rest)[1..] == d[1..] + rest;
      DigitRunStops(d[1..], rest);
    }
  }

  /** The reader splits a field off exactly where the writer ended it, whatever follows. */
  lemma FieldRoundTrip(x: string, rest: string)
    ensures DecodeField(Field(x) + rest) == Some((x, rest))
  {
    var d := Itoa(|x|);
    var s := Field(x) + rest;
    NumberOfItoa(|x|);
    assert s == d + (":" + x + rest);
    DigitRunStops(d, ":" + x + rest);
    assert s[..|d|] == d && s[|d|] == ':';
    assert s[|d| + 1..|d| + 1 + |x|] == x && s[|d| + 1 + |x|..] == rest;
  }

  lemma DecodedField(s: string)
    requires DecodeField(s).Some?
    ensures var (x, rest) := DecodeField(s).value; s == Field(x) + rest
  {
    var k := DigitRun(s);
    var n := Number(s[..k]);
    assert s == s[..k] + ":" + s[k + 1..k + 1 + n] + s[k + 1 + n..];
  }

  /** The stream reads back as the files it was written from. */
  lemma {:induction false} DecodeEncode(fs: seq<File>)
    ensures Decode(Encode(fs)) == Some(fs)
  {
    if fs != [] {
      var f, tail := fs[0], Encode(fs[1..]);
      assert Encode(fs) == Field(f.name) + (Field(f.content) + tail);
      FieldRoundTrip(f.name, Field(f.content) + tail);
      FieldRoundTrip(f.content, tail);
      ItoaDigits(|f.name|);
      DecodeEncode(fs[1..]);
      assert fs == [f] + fs[1..];
    }
  }

  /** Nothing but a written stream is read: the reader is the writer's exact inverse. */
  lemma {:induction false} EncodeDecode(s: string)
    requires Decode(s).Some?
    ensures Encode(Decode(s).value) == s
    decreases |s|
  {
    if s != [] {
      var (name, rest) := DecodeField(s).value;
      var (content, tail) := DecodeField(rest).value;
      DecodedField(s);
      DecodedField(rest);
      EncodeDecode(tail);
      var fs := Decode(s).value;
      assert fs[1..] == Decode(tail).value;
    }
  }

  /** Two file sets never share a stream. */
  lemma StreamInjective(a: map<string, string>, b: map<string, string>)
    requires Stream(a) == Stream(b)
    ensures a == b
  {
    var m, n := SortedKeys(a.Keys), SortedKeys(b.Keys);
    DecodeEncode(FilesOf(a, m));
    DecodeEncode(FilesOf(b, n));
    SameFilesSameMap(a, b, m, n);
  }

  lemma SameFilesSameMap(a: map<string, string>, b: map<string, string>, m: seq<string>, n: seq<string>)
    requires Elems(m) == a.Keys && Elems(n) == b.Keys && FilesOf(a, m) == FilesOf(b, n)
    ensures a == b
  {
    var fa, fb := FilesOf(a, m), FilesOf(b, n);
    assert |fa| == |m| && |fb| == |n|;
    forall i | 0 <= i < |m| ensures m[i] == n[i] { assert fa[i] == fb[i]; }
    assert m == n;
    forall k | k in a ensures a[k] == b[k] {
      assert k in Elems(m);
      var i :| 0 <= i < |m| && m[i] == k;
      assert fa[i].content == fb[i].content;
    }
  }

  lemma Append3(a: string, b: string, c: string)
    ensures a + (b + c) == (a + b) + c
  {
  }

  lemma {:induction false} EncodeSnoc(fs: seq<File>, f: File)
    ensures Encode(fs + [f]) == Encode(fs) + Record(f)
  {
    if fs == [] {
      assert fs + [f] == [f] && [f][1..] == [];
    } else {
      EncodeSnoc(fs[1..], f);
      assert (fs + [f])[1..] == fs[1..] + [f];
      Append3(Record(fs[0]), Encode(fs[1..]), Record(f));
    }
  }

  /** What Digest writes before a content. */
  function Head(name: string, length: nat): string { Itoa(|name|) + ":" + name + Itoa(length) + ":" }

  /** The two writes per file amount to one record. */
  lemma RecordWritten(h: string, f: File)
    ensures h + Head(f.name, |f.content|) + f.content == h + Record(f)
  {
    var head := Itoa(|f.name|) + ":" + f.name;
    var length := Itoa(|f.content|) + ":";
    assert Record(f) == head + (length + f.content);
    Append3(head, length, f.content);
    Append3(h, head + length, f.content);
    Append3(head, Itoa(|f.content|), ":");
  }

  lemma FileWritten(fs: seq<File>, i: nat)
    requires i < |fs|
    ensures Encode(fs[..i]) + Head(fs[i].name, |fs[i].content|) + fs[i].content == Encode(fs[..i + 1])
  {
    RecordWritten(Encode(fs[..i]), fs[i]);
    EncodeSnoc(fs[..i], fs[i]);
    assert fs[..i + 1] == fs[..i] + [fs[i]];
  }

  lemma FilesInOrder(files: map<string, string>, names: seq<string>)
    requires Elems(names) <= files.Keys
    ensures |FilesOf(files, names)| == |names|
    ensures forall i :: 0 <= i < |names| ==>
            names[i] in files && FilesOf(files, names)[i] == File(names[i], files[names[i]])
  {
    forall i | 0 <= i < |names| ensures names[i] in files { assert names[i] in Elems(names); }
  }

  /** What Digest feeds the hash. The names are collected in the map's own order and
      sorted, so that order leaves no trace. */
  method Write(files: map<string, string>) returns (h: string)
    ensures h == Stream(files)
    ensures Decode(h) == Some(FilesOf(files, SortedKeys(files.Keys)))
  {
    h := "";
    var names := Sort(files.Keys);
    ghost var fs := FilesOf(files, names);
    DecodeEncode(fs);
    assert Encode(fs) == Stream(files) && Encode(fs[..0]) == "";
    FilesInOrder(files, names);
    hide *;
    for i := 0 to |names|
      invariant |fs| == |names| && h == Encode(fs[..i])
    {
      var content := files[names[i]];
      h := h + Head(names[i], |content|);
      h := h + content;
      FileWritten(fs, i);
    }
    assert fs[..|names|] == fs;
  }

  /** In bytes: each name and each content behind its length and a colon, names in order. */
  lemma InBytes()
    ensures Stream(map["b" := "", "a" := "xyz"]) == "1:a3:xyz1:b0:"
    ensures Itoa(120) == "120"
  {
    var files: map<string, string> := map["b" := "", "a" := "xyz"];
    var names := ["a", "b"];
    assert Less("a", "b");
    assert Elems(names) == files.Keys;
    SameElemsSameList(SortedKeys(files.Keys), names);
    var fs := FilesOf(files, names);
    assert fs == [File("a", "xyz"), File("b", "")];
    assert fs[1..] == [File("b", "")] && fs[1..][1..] == [];
    assert Record(fs[0]) == "1:a3:xyz" && Record(fs[1]) == "1:b0:";
    assert Encode(fs[1..]) == Record(fs[1]) + Encode([]);
    assert Itoa(1) == "1" && Itoa(12) == "12";
  }
}
