/**
  The file of paired headsets (helper/src/wivrn/store.cpp): one line per headset, name
  and key separated by a tab. The file is a string; where it lives on disk is not
  modelled.
 */
module KeyStore {
  import opened Prelude

  datatype Key = Key(publicKey: string, name: string)

  function Heading(): string { "# wivrnnx paired" + " headsets: " + "<name>\\t" + "<public key>" }
  const UNKNOWN := "Unknown headset"

  // Where a character first occurs, or the length.
  function Find(s: string, c: char): (n: nat)
    ensures n <= |s|
  {
    if s == [] || s[0] == c then 0 else 1 + Find(s[1..], c)
  }

  lemma {:induction false} FindFirst(s: string, c: char)
    ensures var n := Find(s, c); (n < |s| ==> s[n] == c) && forall i :: 0 <= i < n ==> s[i] != c
  {
    if s != [] && s[0] != c { FindFirst(s[1..], c); }
  }

  lemma FindUnique(s: string, c: char, n: nat)
    requires n <= |s| && (n < |s| ==> s[n] == c) && forall i :: 0 <= i < n ==> s[i] != c
    ensures Find(s, c) == n
  {
    FindFirst(s, c);
  }

  // --- Reading ---------------------------------------------------------------------

  function Stripped(line: string): string {
    if line != [] && line[|line| - 1] == '\r' then line[..|line| - 1] else line
  }

  // The records of one line: one, or none for comments and lines without a tab.
  function Record(line: string): seq<Key> {
    var l := Stripped(line);
    if l == [] || l[0] == '#' || Find(l, '\t') == |l| then []
    else [Key(l[Find(l, '\t') + 1..], l[..Find(l, '\t')])]
  }

  function Rest(data: string): string {
    if Find(data, '\n') < |data| then data[Find(data, '\n') + 1..] else []
  }

  function Parse(data: string): seq<Key>
    decreases |data|
  {
    if data == [] then [] else Record(data[..Find(data, '\n')]) + Parse(Rest(data))
  }

  method ReadLine(text: string) returns (keys: seq<Key>)
    ensures keys == Record(text)
  {
    var line := text;
    if line != [] && line[|line| - 1] == '\r' { line := line[..|line| - 1]; }
    if line == [] || line[0] == '#' { return []; }
    var tab := Find(line, '\t');
    if tab == |line| { return []; }
    keys := [Key(line[tab + 1..], line[..tab])];
  }

  // What is left to read from a position on.
  function From(data: string, pos: nat): string { if pos < |data| then data[pos..] else [] }

  lemma RestMoves(data: string, pos: nat, n: nat)
    requires pos < |data| && n == Find(data[pos..], '\n')
    ensures Rest(From(data, pos)) == From(data, pos + n + 1)
  {
    if n < |data[pos..]| { DropTwice(data, pos, n + 1); }
  }

  lemma WholeFile(data: string)
    ensures From(data, 0) == data
  {
  }

  lemma FirstLineParsed(rest: string, n: nat, next: string)
    requires rest != [] && n == Find(rest, '\n') && next == Rest(rest)
    ensures Parse(rest) == Record(rest[..n]) + Parse(next)
  {
  }

  // Reads the line at a position and moves past it.
  method ReadAt(data: string, pos: nat, ghost rest: string) returns (found: seq<Key>, next: nat)
    requires pos < |data| && rest == From(data, pos)
    ensures pos < next && Parse(rest) == found + Parse(From(data, next))
  {
    var line := data[pos..];
    var n := Find(line, '\n');
    found := ReadLine(line[..n]);
    next := pos + n + 1;
    RestMoves(data, pos, n);
    FirstLineParsed(line, n, From(data, next));
  }

  lemma JoinStep(keys: seq<Key>, found: seq<Key>, left: seq<Key>, after: seq<Key>, all: seq<Key>)
    requires keys + left == all && left == found + after
    ensures (keys + found) + after == all
  {
    Regroup(keys, found, after);
  }

  // The reading loop.
  method KnownKeys(data: string) returns (keys: seq<Key>)
    ensures keys == Parse(data)
  {
    WholeFile(data);
    ghost var all := Parse(data);
    ghost var left := all;
    keys := [];
    var pos: nat := 0;
    while pos < |data|
      invariant left == Parse(From(data, pos)) && keys + left == all
      decreases |data| - pos
    {
      var found, next := ReadAt(data, pos, From(data, pos));
      JoinStep(keys, found, left, Parse(From(data, next)), all);
      keys, pos := keys + found, next;
      left := Parse(From(data, pos));
    }
    assert From(data, pos) == [];
    assert left == [];
    assert keys + [] == keys;
  }

  // --- Writing -------------------------------------------------------------------------

  function Line(k: Key): string { k.name + "\t" + k.publicKey + "\n" }

  function Lines(ks: seq<Key>): string { if ks == [] then [] else Line(ks[0]) + Lines(ks[1..]) }

  function Print(ks: seq<Key>): string { Heading() + "\n" + Lines(ks) }

  // --- The round trip ----------------------------------------------------------------------

  // An entry that survives being written and read back.
  ghost predicate Clean(k: Key) {
    && '\t' !in k.name
    && '\n' !in k.name
    && (k.name != [] ==> k.name[0] != '#')
    && '\n' !in k.publicKey && (k.publicKey != [] ==> k.publicKey[|k.publicKey| - 1] != '\r')
  }

  ghost predicate AllClean(ks: seq<Key>) {
    forall i :: 0 <= i < |ks| ==> Clean(ks[i])
  }

  lemma FirstLine(line: string, rest: string)
    requires '\n' !in line
    ensures Parse(line + "\n" + rest) == Record(line) + Parse(rest)
  {
    var data := line + "\n" + rest;
    FindUnique(data, '\n', |line|);
    assert data[..|line|] == line && data[|line| + 1..] == rest;
  }

  lemma JoinedFields(a: string, b: string, line: string)
    requires line == a + "\t" + b
    ensures |line| == |a| + 1 + |b| && line[..|a|] == a && line[|a|] == '\t' && line[|a| + 1..] == b
    ensures line[|line| - 1] == if b == [] then '\t' else b[|b| - 1]
    ensures line[0] == if a == [] then '\t' else a[0]
  {
  }

  lemma TabEndsName(a: string, b: string, line: string)
    requires line == a + "\t" + b && '\t' !in a
    ensures Find(line, '\t') == |a|
  {
    JoinedFields(a, b, line);
    FindUnique(line, '\t', |a|);
  }

  lemma RecordReadsBack(k: Key)
    requires Clean(k)
    ensures Record(k.name + "\t" + k.publicKey) == [k]
  {
    var line := k.name + "\t" + k.publicKey;
    JoinedFields(k.name, k.publicKey, line);
    TabEndsName(k.name, k.publicKey, line);
  }

  lemma LinesReadBack(ks: seq<Key>)
    requires AllClean(ks)
    ensures Parse(Lines(ks)) == ks
  {
    LinesThenRest(ks, "");
    assert Lines(ks) + "" == Lines(ks) && ks + [] == ks;
  }

  lemma CommentIsSkipped(line: string, rest: string)
    requires '\n' !in line && |line| > 1 && line[0] == '#'
    ensures Parse(line + "\n" + rest) == Parse(rest)
  {
    FirstLine(line, rest);
    assert Record(line) == [];
  }

  lemma HeadingIsOneLine()
    ensures '\n' !in Heading() && |Heading()| > 1 && Heading()[0] == '#'
  {
    assert '\n' !in "# wivrnnx paired" && '\n' !in " headsets: ";
    assert '\n' !in "<name>\\t" && '\n' !in "<public key>";
  }

  lemma HeadingIsSkipped(rest: string)
    ensures Parse(Heading() + "\n" + rest) == Parse(rest)
  {
    HeadingIsOneLine();
    CommentIsSkipped(Heading(), rest);
  }

  // How many characters of a file its records account for, separators included.
  function Weight(ks: seq<Key>): nat { if ks == [] then 0 else |ks[0].name| + |ks[0].publicKey| + 2 + Weight(ks[1..]) }

  lemma {:induction false} WeightOfLines(ks: seq<Key>)
    ensures |Lines(ks)| == Weight(ks)
    ensures ks != [] ==> Lines(ks)[|Lines(ks)| - 1] == '\n'
  {
    if ks != [] { WeightOfLines(ks[1..]); }
  }

  // The fields of a line cut at its first tab survive being written again.
  lemma CutIsClean(l: string, t: nat)
    requires l != [] && l[0] != '#' && l[|l| - 1] != '\r' && '\n' !in l && t == Find(l, '\t') && t < |l|
    ensures Clean(Key(l[t + 1..], l[..t]))
  {
    FindFirst(l, '\t');
    var name, publicKey := l[..t], l[t + 1..];
    assert forall c :: c in name || c in publicKey ==> c in l;
    assert publicKey != [] ==> publicKey[|publicKey| - 1] == l[|l| - 1];
  }

  lemma WeightOfOne(k: Key)
    ensures Weight([k]) == |k.name| + |k.publicKey| + 2
  {
  }

  lemma RecordWeight(line: string)
    requires '\n' !in line
    ensures Weight(Record(line)) <= |line| + 1
    ensures Weight(Record(line)) == |line| + 1 ==> AllClean(Record(line))
  {
    var l := Stripped(line);
    var t := Find(l, '\t');
    if l != [] && l[0] != '#' && t < |l| {
      var k := Key(l[t + 1..], l[..t]);
      assert Record(line) == [k];
      WeightOfOne(k);
      if |l| == |line| { CutIsClean(l, t); }
    }
  }

  lemma {:induction false} WeightJoins(a: seq<Key>, b: seq<Key>)
    ensures Weight(a + b) == Weight(a) + Weight(b)
  {
    if a == [] {
      assert a + b == b;
    } else {
      assert (a + b)[1..] == a[1..] + b;
      WeightJoins(a[1..], b);
    }
  }

  // Records never account for more than the file, and for all of it only if every one
  // of them would survive being written again.
  lemma {:induction false} ParseWeight(data: string)
    requires data != [] ==> data[|data| - 1] == '\n'
    ensures Weight(Parse(data)) <= |data|
    ensures Weight(Parse(data)) == |data| ==> AllClean(Parse(data))
    decreases |data|
  {
    if data != [] {
      var n := Find(data, '\n');
      var line, rest := data[..n], Rest(data);
      FindFirst(data, '\n');
      assert n < |data|;
      assert rest != [] ==> rest[|rest| - 1] == data[|data| - 1];
      ParseWeight(rest);
      RecordWeight(line);
      WeightJoins(Record(line), Parse(rest));
    }
  }

  // Parsing what was printed gives back the same list exactly when every entry is clean.
  lemma RoundTrip(ks: seq<Key>)
    ensures Parse(Print(ks)) == ks <==> AllClean(ks)
  {
    HeadingIsSkipped(Lines(ks));
    if AllClean(ks) { LinesReadBack(ks); }
    WeightOfLines(ks);
    ParseWeight(Lines(ks));
  }

  // --- Adding a headset ------------------------------------------------------------------

  // Characters that would break the file into other fields or lines.
  predicate Separates(c: char) { c == '\t' || c == '\r' || c == '\n' }

  function SanitizedName(name: string): string {
    if name == [] then UNKNOWN
    else seq(|name|, i requires 0 <= i < |name| => if Separates(name[i]) then ' ' else name[i])
  }

  // Edits the name in place, character by character.
  method SanitizeName(name: string) returns (r: string)
    ensures r == SanitizedName(name)
    ensures '\t' !in r && '\r' !in r && '\n' !in r && r != []
  {
    r := name;
    for i := 0 to |r|
      invariant |r| == |name|
      invariant forall j :: 0 <= j < i ==> r[j] == if Separates(name[j]) then ' ' else name[j]
      invariant forall j :: i <= j < |r| ==> r[j] == name[j]
    {
      if r[i] == '\t' || r[i] == '\r' || r[i] == '\n' { r := r[i := ' ']; }
    }
    if r == [] { r := UNKNOWN; }
  }

  function Digit(d: nat): char
    requires d < 10
  {
    "0123456789"[d]
  }

  function Decimal(n: nat): (s: string)
    ensures s != []
  {
    if n < 10 then [Digit(n)] else Decimal(n / 10) + [Digit(n % 10)]
  }

  lemma {:induction false} DecimalIsInjective(a: nat, b: nat)
    requires Decimal(a) == Decimal(b)
    ensures a == b
    decreases a + b
  {
    var x, y := Decimal(a), Decimal(b);
    assert x[|x| - 1] == y[|y| - 1];
    assert a % 10 == b % 10;
    assert a >= 10 <==> |x| >= 2;
    assert b >= 10 <==> |y| >= 2;
    if a >= 10 {
      assert x[..|x| - 1] == Decimal(a / 10) && y[..|y| - 1] == Decimal(b / 10);
      DecimalIsInjective(a / 10, b / 10);
    }
  }

  // The n-th name tried: the name itself, then the name with a number from 2 on.
  function Candidate(original: string, n: nat): string {
    if n == 0 then original else original + " (" + Decimal(n + 1) + ")"
  }

  lemma CandidatesDiffer(original: string, i: nat, j: nat)
    requires i < j
    ensures Candidate(original, i) != Candidate(original, j)
  {
    var a, b := Candidate(original, i), Candidate(original, j);
    if i > 0 && a == b {
      var m := |original| + 2;
      assert a[m..|a| - 1] == Decimal(i + 1) && b[m..|b| - 1] == Decimal(j + 1);
      DecimalIsInjective(i + 1, j + 1);
    }
  }

  ghost predicate NameTaken(ks: seq<Key>, name: string) { exists i :: 0 <= i < |ks| && ks[i].name == name }

  function Names(ks: seq<Key>): set<string> { set i | 0 <= i < |ks| :: ks[i].name }

  lemma {:induction false} FewNames(ks: seq<Key>)
    ensures |Names(ks)| <= |ks|
  {
    if ks == [] {
      assert Names(ks) == {};
    } else {
      FewNames(ks[1..]);
      assert Names(ks) == {ks[0].name} + Names(ks[1..]) by {
        forall x | x in Names(ks) ensures x in {ks[0].name} + Names(ks[1..]) {
          var i :| 0 <= i < |ks| && ks[i].name == x;
          if i > 0 { assert ks[1..][i - 1].name == x; }
        }
        forall x | x in Names(ks[1..]) ensures x in Names(ks) {
          var i :| 0 <= i < |ks[1..]| && ks[1..][i].name == x;
          assert ks[i + 1].name == x;
        }
      }
    }
  }

  function Tried(original: string, n: nat): set<string> { set i | 0 <= i < n :: Candidate(original, i) }

  lemma TriedOneMore(original: string, n: nat)
    ensures Tried(original, n + 1) == Tried(original, n) + {Candidate(original, n)}
  {
  }

  lemma NotYetTried(original: string, n: nat)
    ensures Candidate(original, n) !in Tried(original, n)
  {
    forall i | 0 <= i < n ensures Candidate(original, i) != Candidate(original, n) { CandidatesDiffer(original, i, n); }
  }

  lemma {:induction false} ManyCandidates(original: string, n: nat)
    ensures |Tried(original, n)| == n
  {
    if n == 0 {
      assert Tried(original, n) == {};
    } else {
      ManyCandidates(original, n - 1);
      TriedOneMore(original, n - 1);
      NotYetTried(original, n - 1);
    }
  }

  lemma SubsetIsSmaller(a: set<string>, b: set<string>)
    requires a <= b
    ensures |a| <= |b|
  {
    assert b == a + (b - a);
  }

  // No more candidates can be taken than there are headsets.
  lemma CandidatesRunOut(ks: seq<Key>, original: string, n: nat)
    requires forall i :: 0 <= i < n ==> NameTaken(ks, Candidate(original, i))
    ensures n <= |ks|
  {
    FewNames(ks);
    ManyCandidates(original, n);
    forall x | x in Tried(original, n) ensures x in Names(ks) {
      var i :| 0 <= i < n && Candidate(original, i) == x;
      assert NameTaken(ks, Candidate(original, i));
    }
    SubsetIsSmaller(Tried(original, n), Names(ks));
  }

  // The renaming loop: the first candidate nobody has, found within |keys| + 1 tries.
  method FreshName(ks: seq<Key>, original: string) returns (name: string, tries: nat)
    ensures 1 <= tries <= |ks| + 1 && name == Candidate(original, tries - 1) && !NameTaken(ks, name)
    ensures forall i :: 0 <= i < tries - 1 ==> NameTaken(ks, Candidate(original, i))
  {
    name := original;
    tries := 1;
    var clash := true;
    while clash
      invariant 1 <= tries && name == Candidate(original, tries - 1)
      invariant forall i :: 0 <= i < tries - 1 ==> NameTaken(ks, Candidate(original, i))
      invariant tries <= |ks| + 1
      invariant !clash ==> !NameTaken(ks, name)
      decreases |ks| + 1 - tries, clash
    {
      clash := false;
      for k := 0 to |ks|
        invariant !clash && forall i :: 0 <= i < k ==> ks[i].name != name
      {
        if ks[k].name == name {
          clash := true;
          break;
        }
      }
      if clash {
        assert NameTaken(ks, Candidate(original, tries - 1));
        CandidatesRunOut(ks, original, tries);
        tries := tries + 1;
        name := original + " (" + Decimal(tries) + ")";
      }
    }
  }

  ghost predicate KeyKnown(ks: seq<Key>, publicKey: string) {
    exists i :: 0 <= i < |ks| && ks[i].publicKey == publicKey
  }

  method Lookup(keys: seq<Key>, publicKey: string) returns (known: bool)
    ensures known <==> KeyKnown(keys, publicKey)
  {
    for i := 0 to |keys|
      invariant forall j :: 0 <= j < i ==> keys[j].publicKey != publicKey
    {
      if keys[i].publicKey == publicKey { return true; }
    }
    known := false;
  }

  method IsKeyKnown(data: string, publicKey: string) returns (known: bool)
    ensures known <==> publicKey != [] && KeyKnown(Parse(data), publicKey)
  {
    if publicKey == [] { return false; }
    var keys := KnownKeys(data);
    known := Lookup(keys, publicKey);
  }

  // The name a new headset is filed under is the first candidate that is free.
  ghost predicate FiledAs(ks: seq<Key>, asked: string, name: string) {
    !NameTaken(ks, name)
    && exists n :: 0 <= n <= |ks| && name == Candidate(SanitizedName(asked), n)
                   && forall i :: 0 <= i < n ==> NameTaken(ks, Candidate(SanitizedName(asked), i))
  }

  // The writing loop.
  method Written(all: seq<Key>) returns (text: string)
    ensures text == Print(all)
  {
    text := Heading() + "\n";
    for i := 0 to |all|
      invariant text + Lines(all[i..]) == Print(all)
    {
      assert all[i..][1..] == all[i + 1..];
      text := text + (all[i].name + "\t" + all[i].publicKey + "\n");
    }
  }

  // The file after adding a headset, or None when it is left as it is.
  method AddKnownKey(data: string, key: Key) returns (out: Option<string>, name: string)
    ensures out.None? <==> key.publicKey == [] || KeyKnown(Parse(data), key.publicKey)
    ensures out.Some? ==>
              FiledAs(Parse(data), key.name, name) && out.value == Print(Parse(data) + [Key(key.publicKey, name)])
    ensures Adds(data, key, if out.Some? then out.value else data)
  {
    name := "";
    if key.publicKey == [] { return None, name; }
    var keys := KnownKeys(data);
    var known := Lookup(keys, key.publicKey);
    if known { return None, name; }
    var original := SanitizeName(key.name);
    var tries;
    name, tries := FreshName(keys, original);
    FirstFreeIsFiled(keys, key.name, tries - 1);
    var text := Written(keys + [Key(key.publicKey, name)]);
    out := Some(text);
  }

  lemma FirstFreeIsFiled(ks: seq<Key>, asked: string, n: nat)
    requires n <= |ks| && !NameTaken(ks, Candidate(SanitizedName(asked), n))
    requires forall i :: 0 <= i < n ==> NameTaken(ks, Candidate(SanitizedName(asked), i))
    ensures FiledAs(ks, asked, Candidate(SanitizedName(asked), n))
  {
  }

  // --- What adding does to the file --------------------------------------------------------

  ghost predicate Distinct(ks: seq<Key>) {
    forall i, j :: 0 <= i < j < |ks| ==> ks[i].name != ks[j].name && ks[i].publicKey != ks[j].publicKey
  }

  // A file whose entries all survive, under distinct names and keys.
  ghost predicate SoundList(ks: seq<Key>) { AllClean(ks) && Distinct(ks) }

  ghost predicate Sound(data: string) { SoundList(Parse(data)) }

  ghost predicate CleanKey(publicKey: string) { publicKey != [] && '\n' !in publicKey && '\r' !in publicKey }

  lemma {:induction false} DecimalIsPlain(n: nat)
    ensures forall c :: c in Decimal(n) ==> c != '\t' && c != '\n' && c != '\r'
  {
    if n >= 10 { DecimalIsPlain(n / 10); }
  }

  // A candidate has no separators, and starts as the headset's own name does.
  lemma CandidateIsPlain(asked: string, n: nat)
    ensures var c := Candidate(SanitizedName(asked), n);
            && c != []
            && '\t' !in c
            && '\n' !in c
            && c[0] == SanitizedName(asked)[0]
  {
    var o := SanitizedName(asked);
    assert '\t' !in o && '\n' !in o && o != [] by { assert '\t' !in UNKNOWN && '\n' !in UNKNOWN; }
    if n > 0 {
      DecimalIsPlain(n + 1);
      assert Candidate(o, n) == o + " (" + Decimal(n + 1) + ")";
    }
  }

  lemma CommentedRecord(k: Key)
    requires k.name != [] && k.name[0] == '#' && '\t' !in k.name
    ensures Record(k.name + "\t" + k.publicKey) == []
  {
    var line := k.name + "\t" + k.publicKey;
    assert line[0] == '#' && |line| >= 2;
  }

  lemma LineThenRest(k: Key, rest: string)
    requires '\n' !in k.name && '\n' !in k.publicKey
    ensures Parse(Line(k) + rest) == Record(k.name + "\t" + k.publicKey) + Parse(rest)
  {
    var line := k.name + "\t" + k.publicKey;
    assert Line(k) + rest == line + "\n" + rest;
    FirstLine(line, rest);
  }

  lemma CleanLineThenRest(k: Key, rest: string)
    requires Clean(k)
    ensures Parse(Line(k) + rest) == [k] + Parse(rest)
  {
    LineThenRest(k, rest);
    RecordReadsBack(k);
  }

  lemma {:induction false} LinesThenRest(ks: seq<Key>, rest: string)
    requires AllClean(ks)
    ensures Parse(Lines(ks) + rest) == ks + Parse(rest)
  {
    if ks == [] {
      assert Lines(ks) + rest == rest;
    } else {
      var k, tail := ks[0], ks[1..];
      LinesThenRest(tail, rest);
      Regroup(Line(k), Lines(tail), rest);
      CleanLineThenRest(k, Lines(tail) + rest);
      Regroup([k], tail, Parse(rest));
      assert [k] + tail == ks;
    }
  }

  lemma {:induction false} LinesAppend(ks: seq<Key>, k: Key)
    ensures Lines(ks + [k]) == Lines(ks) + Line(k)
  {
    if ks == [] {
      assert (ks + [k])[1..] == [];
    } else {
      assert (ks + [k])[1..] == ks[1..] + [k];
      LinesAppend(ks[1..], k);
    }
  }

  lemma LastLine(k: Key)
    requires '\n' !in k.name && '\n' !in k.publicKey
    ensures Parse(Line(k)) == Record(k.name + "\t" + k.publicKey)
  {
    var r := Record(k.name + "\t" + k.publicKey);
    LineThenRest(k, "");
    assert Line(k) + "" == Line(k) && r + [] == r;
  }

  lemma AppendedLine(ks: seq<Key>, k: Key)
    requires AllClean(ks) && '\n' !in k.name && '\n' !in k.publicKey
    ensures Parse(Lines(ks + [k])) == ks + Record(k.name + "\t" + k.publicKey)
  {
    LinesAppend(ks, k);
    LinesThenRest(ks, Line(k));
    LastLine(k);
  }

  // What a file printed with one more headset reads back as.
  lemma AddedReadsBack(ks: seq<Key>, k: Key)
    requires AllClean(ks) && CleanKey(k.publicKey) && k.name != [] && '\t' !in k.name && '\n' !in k.name
    ensures Parse(Print(ks + [k])) == if k.name[0] == '#' then ks else ks + [k]
    ensures AllClean(Parse(Print(ks + [k])))
  {
    HeadingIsSkipped(Lines(ks + [k]));
    AppendedLine(ks, k);
    if k.name[0] == '#' { CommentedRecord(k); } else { RecordReadsBack(k); }
  }

  lemma AddedIsDistinct(ks: seq<Key>, k: Key)
    requires Distinct(ks) && !NameTaken(ks, k.name) && !KeyKnown(ks, k.publicKey)
    ensures Distinct(ks + [k])
    ensures KeyKnown(ks + [k], k.publicKey)
  {
    assert (ks + [k])[|ks|] == k;
  }

  // Adding a headset with a new cleaned key to a sound file: everything known before is
  // still known, in the same order, and the file is sound. The new one is known from
  // then on exactly when its name does not begin with the comment mark.
  lemma AddingRemembersExactly(ks: seq<Key>, key: Key, name: string)
    requires SoundList(ks) && CleanKey(key.publicKey) && !KeyKnown(ks, key.publicKey) && FiledAs(ks, key.name, name)
    ensures var out := Print(ks + [Key(key.publicKey, name)]);
            && Sound(out)
            && Parse(out) == (if SanitizedName(key.name)[0] == '#' then ks else ks + [Key(key.publicKey, name)])
            && (KeyKnown(Parse(out), key.publicKey) <==> SanitizedName(key.name)[0] != '#')
  {
    var k := Key(key.publicKey, name);
    var n :| 0 <= n <= |ks| && name == Candidate(SanitizedName(key.name), n);
    CandidateIsPlain(key.name, n);
    AddedReadsBack(ks, k);
    AddedIsDistinct(ks, k);
  }

  // One call of AddKnownKey on the file.
  ghost predicate Adds(data: string, key: Key, out: string) {
    if key.publicKey == [] || KeyKnown(Parse(data), key.publicKey) then out == data
    else exists name :: FiledAs(Parse(data), key.name, name) && out == Print(Parse(data) + [Key(key.publicKey, name)])
  }

  lemma AddKeepsSound(data: string, key: Key, out: string)
    requires Sound(data) && Adds(data, key, out) && (key.publicKey == [] || CleanKey(key.publicKey))
    ensures Sound(out)
  {
    if key.publicKey != [] && !KeyKnown(Parse(data), key.publicKey) {
      var name :| FiledAs(Parse(data), key.name, name) && out == Print(Parse(data) + [Key(key.publicKey, name)]);
      AddingRemembersExactly(Parse(data), key, name);
    }
  }

  // A headset with a well-formed key, or none at all, is added to file i.
  ghost predicate Pairs(files: seq<string>, keys: seq<Key>, i: nat)
    requires i < |keys| && |files| == |keys| + 1
  {
    (keys[i].publicKey == [] || CleanKey(keys[i].publicKey)) && Adds(files[i], keys[i], files[i + 1])
  }

  // The file from nothing on, as one headset after another is added.
  ghost predicate History(files: seq<string>, keys: seq<Key>) {
    && |files| == |keys| + 1 && |files[0]| == 0
    && forall i :: 0 <= i < |keys| ==> Pairs(files, keys, i)
  }

  lemma EmptyIsSound(files: seq<string>, keys: seq<Key>)
    requires History(files, keys)
    ensures Sound(files[0])
  {
  }

  lemma PairingKeepsSound(files: seq<string>, keys: seq<Key>, i: nat)
    requires History(files, keys) && i < |keys| && Sound(files[i])
    ensures Sound(files[i + 1])
  {
    assert Pairs(files, keys, i);
    AddKeepsSound(files[i], keys[i], files[i + 1]);
  }

  // However many headsets are added to an empty file, it stays sound: distinct names,
  // distinct keys, and every entry in it survives the next rewrite.
  lemma {:induction false} EveryFileIsSound(files: seq<string>, keys: seq<Key>, n: nat)
    requires History(files, keys) && n <= |keys|
    ensures Sound(files[n])
  {
    if n == 0 {
      EmptyIsSound(files, keys);
    } else {
      EveryFileIsSound(files, keys, n - 1);
      PairingKeepsSound(files, keys, n - 1);
    }
  }

  lemma OrdinaryName(name: string)
    requires name != [] && '\t' !in name && '\r' !in name && '\n' !in name
    ensures SanitizedName(name) == name
  {
  }

  // A headset that calls itself "#1" has to pair again every time.
  lemma CommentMarkIsLost()
    ensures FiledAs([], "#1", "#1")
    ensures Parse(Print([Key("k", "#1")])) == []
  {
    OrdinaryName("#1");
    FirstFreeIsFiled([], "#1", 0);
    HeadingIsSkipped(Lines([Key("k", "#1")]));
    AppendedLine([], Key("k", "#1"));
    CommentedRecord(Key("k", "#1"));
    assert [] + [Key("k", "#1")] == [Key("k", "#1")];
  }
}
